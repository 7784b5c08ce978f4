/** Names of the Jobs the PVCBackup controller creates, and the prefixes it finds them by. */
module JobNames {
  import opened Text

  const MAX_NAME := 63

  const BACKUP := "pvcbackup-"
  const PRUNE := "prune-"

  function BackupPrefix(name: string): string { BACKUP + name + "-" }

  function PrunePrefix(name: string): string { BACKUP + PRUNE + name + "-" }

  function BackupJobName(name: string, at: nat): string {
    Truncate(BackupPrefix(name) + Decimal(at), MAX_NAME)
  }

  function PruneJobName(name: string, at: nat): string {
    Truncate(PrunePrefix(name) + Decimal(at), MAX_NAME)
  }

  /** The claim cloned from a snapshot. */
  function CloneName(name: string, at: nat): string { name + "-clone-" + Decimal(at) }

  function Max0(n: int): nat { if n < 0 then 0 else n }

  /** Unix times of ten digits: from September 2001 to November 2286. */
  predicate TenDigits(at: nat) { 1_000_000_000 <= at < 10_000_000_000 }

  lemma TenDigitsLength(at: nat)
    requires TenDigits(at)
    ensures |Decimal(at)| == 10
  {
    assert Pow10(9) == 1_000_000_000 by { Pow10Values(); }
    assert Pow10(10) == 10_000_000_000 by { Pow10Values(); }
    DecimalLength(at, 10);
  }

  lemma Pow10Values()
    ensures Pow10(9) == 1_000_000_000 && Pow10(10) == 10_000_000_000
  {
    assert Pow10(3) == 1000;
    assert Pow10(6) == 1000 * 1000;
    assert Pow10(9) == 1000 * 1000 * 1000;
  }

  /** A name cut to 63 characters keeps its prefix and all but the last `lost` digits. */
  lemma TruncatedName(prefix: string, at: nat)
    requires TenDigits(at) && |prefix| <= MAX_NAME
    ensures var lost := Max0(|prefix| + 10 - MAX_NAME);
            |Decimal(at)| == 10 &&
            Truncate(prefix + Decimal(at), MAX_NAME) == prefix + Decimal(at)[..10 - lost]
  {
    TenDigitsLength(at);
    var lost := Max0(|prefix| + 10 - MAX_NAME);
    if lost > 0 {
      assert (prefix + Decimal(at))[..MAX_NAME] == prefix + Decimal(at)[..10 - lost];
    } else {
      assert Decimal(at)[..10] == Decimal(at);
    }
  }

  lemma LeadingDigitsEqual(t1: nat, t2: nat, digits: nat, lost: nat)
    requires |Decimal(t1)| == |Decimal(t2)| == digits && lost < digits
    ensures Decimal(t1)[..digits - lost] == Decimal(t2)[..digits - lost] <==> DropDigits(t1, lost) == DropDigits(t2, lost)
  {
    DecimalPrefix(t1, lost);
    DecimalPrefix(t2, lost);
    DecimalInjective(DropDigits(t1, lost), DropDigits(t2, lost));
  }

  lemma NoDigitLeft(at: nat)
    requires TenDigits(at)
    ensures at / Pow10(10) == 0
  {
    Pow10Values();
  }

  lemma DecimalInjective(a: nat, b: nat)
    ensures Decimal(a) == Decimal(b) <==> a == b
  {
    ValueOfDecimal(a);
    ValueOfDecimal(b);
  }

  lemma SameTruncation(prefix: string, t1: nat, t2: nat)
    requires TenDigits(t1) && TenDigits(t2) && |prefix| <= MAX_NAME
    ensures var lost := Max0(|prefix| + 10 - MAX_NAME);
            Truncate(prefix + Decimal(t1), MAX_NAME) == Truncate(prefix + Decimal(t2), MAX_NAME)
            <==> t1 / Pow10(lost) == t2 / Pow10(lost)
  {
    var lost := Max0(|prefix| + 10 - MAX_NAME);
    TruncatedName(prefix, t1);
    TruncatedName(prefix, t2);
    if lost < 10 {
      LeadingDigitsEqual(t1, t2, 10, lost);
      DropDigitsDivides(t1, lost);
      DropDigitsDivides(t2, lost);
    } else {
      NoDigitLeft(t1);
      NoDigitLeft(t2);
    }
    var n1, n2 := prefix + Decimal(t1)[..10 - lost], prefix + Decimal(t2)[..10 - lost];
    assert n1[|prefix|..] == Decimal(t1)[..10 - lost];
    assert n2[|prefix|..] == Decimal(t2)[..10 - lost];
  }

  /** Two runs of one PVCBackup share a Job name exactly when the digits that survive truncation agree. */
  lemma BackupJobNamesEqual(name: string, t1: nat, t2: nat)
    requires |name| <= 52 && TenDigits(t1) && TenDigits(t2)
    ensures var d := Pow10(Max0(|name| - 42));
            BackupJobName(name, t1) == BackupJobName(name, t2) <==> t1 / d == t2 / d
  {
    assert |BackupPrefix(name)| == |name| + 11;
    SameTruncation(BackupPrefix(name), t1, t2);
  }

  lemma PruneJobNamesEqual(name: string, t1: nat, t2: nat)
    requires |name| <= 46 && TenDigits(t1) && TenDigits(t2)
    ensures var d := Pow10(Max0(|name| - 36));
            PruneJobName(name, t1) == PruneJobName(name, t2) <==> t1 / d == t2 / d
  {
    assert |PrunePrefix(name)| == |name| + 17;
    SameTruncation(PrunePrefix(name), t1, t2);
  }

  /** Up to 42 characters a backup Job name determines both the backup and the second of its start. */
  lemma BackupJobNameInjective(a: string, b: string, t1: nat, t2: nat)
    requires |a| <= 42 && |b| <= 42 && TenDigits(t1) && TenDigits(t2)
    ensures BackupJobName(a, t1) == BackupJobName(b, t2) <==> a == b && t1 == t2
  {
    if BackupJobName(a, t1) == BackupJobName(b, t2) {
      WholeName(BackupPrefix(a), t1);
      WholeName(BackupPrefix(b), t2);
      SplitEqual(BackupPrefix(a), Decimal(t1), BackupPrefix(b), Decimal(t2));
      assert a == BackupPrefix(a)[10..|a| + 10];
      assert b == BackupPrefix(b)[10..|b| + 10];
      ValueOfDecimal(t1);
      ValueOfDecimal(t2);
    }
  }

  /** Nor does a longer name, cut or not, ever print the same Job name as a short one. */
  lemma LongNameDiffers(a: string, b: string, t1: nat, t2: nat)
    requires |a| <= 42 && 43 <= |b| <= 52 && TenDigits(t1) && TenDigits(t2)
    ensures BackupJobName(a, t1) != BackupJobName(b, t2)
  {
    WholeName(BackupPrefix(a), t1);
    TruncatedName(BackupPrefix(b), t2);
    var at := |BackupPrefix(b)| - 1;
    assert BackupJobName(b, t2)[at] == BackupPrefix(b)[at] == '-';
    if at < |BackupJobName(a, t1)| {
      assert BackupJobName(a, t1)[at] == Decimal(t1)[at - |BackupPrefix(a)|];
    }
  }

  /** So a short backup name and a start second are determined by the Job name among all findable names. */
  lemma OtherBackupName(a: string, b: string, t1: nat, t2: nat)
    requires |a| <= 42 && |b| <= 52 && TenDigits(t1) && TenDigits(t2)
    ensures BackupJobName(a, t1) == BackupJobName(b, t2) <==> a == b && t1 == t2
  {
    if |b| <= 42 {
      BackupJobNameInjective(a, b, t1, t2);
    } else {
      LongNameDiffers(a, b, t1, t2);
    }
  }

  lemma WholeName(prefix: string, at: nat)
    requires TenDigits(at) && |prefix| <= 53
    ensures |Decimal(at)| == 10 && Truncate(prefix + Decimal(at), MAX_NAME) == prefix + Decimal(at)
  {
    TenDigitsLength(at);
  }

  lemma SplitEqual(a: string, x: string, b: string, y: string)
    requires a + x == b + y && |x| == |y|
    ensures a == b && x == y
  {
    assert |a + x| == |b + y|;
    assert a == (a + x)[..|a|] && b == (b + y)[..|b|];
    assert x == (a + x)[|a|..] && y == (b + y)[|b|..];
  }

  /** The one way a backup Job and a prune Job of up to 36-character owners collide: the backup is called
      "prune-" + the pruned one, and both start in the same second. */
  lemma BackupAndPruneNamesCollide(a: string, b: string, t1: nat, t2: nat)
    requires |a| <= 42 && |b| <= 36 && TenDigits(t1) && TenDigits(t2)
    ensures BackupJobName(a, t1) == PruneJobName(b, t2) <==> a == PRUNE + b && t1 == t2
  {
    WholeName(BackupPrefix(a), t1);
    WholeName(PrunePrefix(b), t2);
    if BackupJobName(a, t1) == PruneJobName(b, t2) {
      SplitEqual(BackupPrefix(a), Decimal(t1), PrunePrefix(b), Decimal(t2));
      assert a == BackupPrefix(a)[10..|a| + 10];
      assert PRUNE + b == PrunePrefix(b)[10..|b| + 16];
      assert |a| == |b| + 6;
      ValueOfDecimal(t1);
      ValueOfDecimal(t2);
    }
    if a == PRUNE + b {
      assert BackupPrefix(a) == PrunePrefix(b);
    }
  }

  lemma TruncationKeeps(s: string, prefix: string)
    requires HasPrefix(s, prefix) && |prefix| <= MAX_NAME
    ensures HasPrefix(Truncate(s, MAX_NAME), prefix)
  {
    assert Truncate(s, MAX_NAME)[..|prefix|] == s[..|prefix|];
  }

  /** For longer pruned names the prune Job's name is cut, and there is no collision at all. */
  lemma LongPruneNameIsNoBackup(a: string, b: string, t1: nat, t2: nat)
    requires |a| <= 42 && 37 <= |b| <= 46 && TenDigits(t1) && TenDigits(t2)
    ensures BackupJobName(a, t1) != PruneJobName(b, t2)
  {
    WholeName(BackupPrefix(a), t1);
    TruncatedName(PrunePrefix(b), t2);
    var at := |PrunePrefix(b)| - 1;
    assert PruneJobName(b, t2)[at] == PrunePrefix(b)[at] == '-';
    if at < |BackupJobName(a, t1)| {
      assert BackupJobName(a, t1)[at] == Decimal(t1)[at - |BackupPrefix(a)|];
    }
  }

  /** Job names of a backup of up to 42 characters are never those of another one called b: b is not pruned under the
      name of a, and if b is so long that its name is cut, it does not go on from a and a dash. */
  predicate KeepsApart(a: string, b: string) {
    a != PRUNE + b && (|b| > 52 ==> !HasPrefix(b, a + "-")) && (|b| > 46 ==> !HasPrefix(PRUNE + b, a + "-"))
  }

  lemma CutName(a: string, at: nat, long: string, rest: string)
    requires |a| <= 42 && TenDigits(at) && |long| >= 53
    requires BackupJobName(a, at) == Truncate(BACKUP + long + rest, MAX_NAME)
    ensures HasPrefix(long, a + "-")
  {
    WholeName(BackupPrefix(a), at);
    var name, cut := BackupPrefix(a) + Decimal(at), (BACKUP + long + rest)[..MAX_NAME];
    assert name == cut;
    assert name[10..11 + |a|] == a + "-";
    assert cut == BACKUP + long[..53];
    assert cut[10..11 + |a|] == long[..|a| + 1];
  }

  /** No Job of a backup called b prints a name of one of up to 42 characters that keeps apart from it. */
  lemma NamesKeepApart(a: string, b: string, t1: nat, t2: nat)
    requires |a| <= 42 && TenDigits(t1) && TenDigits(t2) && KeepsApart(a, b)
    ensures BackupJobName(a, t1) != PruneJobName(b, t2)
    ensures BackupJobName(a, t1) == BackupJobName(b, t2) <==> a == b && t1 == t2
  {
    if |b| <= 36 {
      BackupAndPruneNamesCollide(a, b, t1, t2);
    } else if |b| <= 46 {
      LongPruneNameIsNoBackup(a, b, t1, t2);
    } else if BackupJobName(a, t1) == PruneJobName(b, t2) {
      assert PrunePrefix(b) + Decimal(t2) == BACKUP + (PRUNE + b) + ("-" + Decimal(t2));
      CutName(a, t1, PRUNE + b, "-" + Decimal(t2));
    }
    if |b| <= 52 {
      OtherBackupName(a, b, t1, t2);
    } else if BackupJobName(a, t1) == BackupJobName(b, t2) {
      assert BackupPrefix(b) + Decimal(t2) == BACKUP + b + ("-" + Decimal(t2));
      CutName(a, t1, b, "-" + Decimal(t2));
    }
  }

  /** The finder's prefix survives truncation exactly up to 52 characters. */
  lemma BackupPrefixSurvives(name: string, at: nat)
    ensures HasPrefix(BackupJobName(name, at), BackupPrefix(name)) <==> |name| <= 52
  {
    assert |BackupPrefix(name)| == |name| + 11;
    if |name| <= 52 {
      TruncationKeeps(BackupPrefix(name) + Decimal(at), BackupPrefix(name));
    }
  }

  lemma PrunePrefixSurvives(name: string, at: nat)
    ensures HasPrefix(PruneJobName(name, at), PrunePrefix(name)) <==> |name| <= 46
  {
    assert |PrunePrefix(name)| == |name| + 17;
    if |name| <= 46 {
      TruncationKeeps(PrunePrefix(name) + Decimal(at), PrunePrefix(name));
    }
  }

  /** A backup Job is never found by its owner's prune scan. */
  lemma BackupJobIsNotPrune(name: string, at: nat)
    ensures !HasPrefix(BackupJobName(name, at), PrunePrefix(name))
  {
    var job, prefix := BackupPrefix(name) + Decimal(at), PrunePrefix(name);
    var last := |prefix| - 1;
    assert prefix[last] == '-';
    if last < |BackupJobName(name, at)| {
      assert BackupJobName(name, at)[last] == job[last] == Decimal(at)[last - |BackupPrefix(name)|];
      assert BackupJobName(name, at)[last] == BackupJobName(name, at)[..|prefix|][last];
    }
  }

  /** s is "prune-" repeated any number of times. */
  predicate PrunePower(s: string) {
    s == "" || (HasPrefix(s, PRUNE) && PrunePower(s[6..]))
  }

  /** A prune Job is found by its owner's backup scan exactly for the names "prune", "prune-prune", ... */
  lemma PruneJobLooksLikeBackup(name: string, at: nat)
    requires |name| <= 46 && TenDigits(at)
    ensures HasPrefix(PruneJobName(name, at), BackupPrefix(name)) <==> PrunePower(name + "-")
  {
    var s := name + "-";
    TruncatedName(PrunePrefix(name), at);
    var kept := Decimal(at)[..10 - Max0(|PrunePrefix(name)| + 10 - MAX_NAME)];
    PrefixShapes(name, kept);
    ShiftedPrefix(s, kept);
    PeriodIsPower(s);
  }

  // ---------------------------------------------------------------------
  // Names that are cut

  /** Where the prune scan can no longer tell a prune Job of this name, its name starts like a backup Job's. */
  predicate Confusable(name: string) {
    |name| >= 47 && HasPrefix(PrunePrefix(name), Truncate(BackupPrefix(name), MAX_NAME))
  }

  /** One of the two scans finds the prune Jobs of this name. */
  predicate PruneSeen(name: string) { |name| <= 46 || (|name| <= 52 && Confusable(name)) }

  /** Beyond 46 characters all prune Jobs of a name are called the same. */
  lemma CutPruneName(name: string, at: nat)
    requires |name| >= 47
    ensures PruneJobName(name, at) == PrunePrefix(name)[..MAX_NAME]
  {
  }

  /** Beyond 52 characters so are all its backup Jobs. */
  lemma CutBackupName(name: string, at: nat)
    requires |name| >= 53
    ensures BackupJobName(name, at) == BackupPrefix(name)[..MAX_NAME]
  {
  }

  /** Beyond 46 characters the backup scan takes a prune Job for a backup Job exactly for the confusable names of up
      to 52. */
  lemma CutPruneLooksLikeBackup(name: string, at: nat)
    requires |name| >= 47
    ensures HasPrefix(PruneJobName(name, at), BackupPrefix(name)) <==> |name| <= 52 && Confusable(name)
  {
    CutPruneName(name, at);
    if |name| <= 52 {
      var n := |BackupPrefix(name)|;
      assert PrunePrefix(name)[..MAX_NAME][..n] == PrunePrefix(name)[..n];
    }
  }

  /** Beyond 52 characters the two kinds share their name exactly for the confusable ones. */
  lemma CutNamesEqual(name: string, t1: nat, t2: nat)
    requires |name| >= 53
    ensures BackupJobName(name, t1) == PruneJobName(name, t2) <==> Confusable(name)
  {
    CutPruneName(name, t2);
    CutBackupName(name, t1);
  }

  /** Where neither scan sees a prune Job and the name is not confusable, the two kinds never share a name. */
  lemma UnseenNamesDiffer(name: string, t1: nat, t2: nat)
    requires |name| >= 47 && !Confusable(name)
    ensures BackupJobName(name, t1) != PruneJobName(name, t2)
  {
    if |name| <= 52 {
      BackupPrefixSurvives(name, t1);
      CutPruneLooksLikeBackup(name, t2);
    } else {
      CutNamesEqual(name, t1, t2);
    }
  }

  lemma PrefixShapes(name: string, rest: string)
    ensures BackupPrefix(name) == BACKUP + (name + "-")
    ensures PrunePrefix(name) + rest == BACKUP + ((PRUNE + (name + "-")) + rest)
  {
  }

  lemma ShiftedPrefix(s: string, rest: string)
    ensures HasPrefix(BACKUP + ((PRUNE + s) + rest), BACKUP + s) <==> (PRUNE + s)[..|s|] == s
  {
    var job := BACKUP + ((PRUNE + s) + rest);
    var head := job[..|BACKUP + s|];
    assert head == BACKUP + (PRUNE + s)[..|s|];
    assert head[10..] == (PRUNE + s)[..|s|];
    assert (BACKUP + s)[10..] == s;
  }

  lemma {:induction false} PeriodIsPower(s: string)
    requires s == "" || s[|s| - 1] == '-'
    ensures (PRUNE + s)[..|s|] == s <==> PrunePower(s)
  {
    if |s| < 6 {
      if s != "" {
        assert (PRUNE + s)[..|s|][|s| - 1] == PRUNE[|s| - 1] != '-';
      }
    } else {
      var rest := s[6..];
      PeriodIsPower(rest);
      assert s == s[..6] + rest;
      assert (PRUNE + s)[..|s|] == PRUNE + s[..|s| - 6];
      if s[..6] == PRUNE {
        assert s == PRUNE + rest;
        assert s[..|s| - 6] == (PRUNE + rest)[..|rest|];
        if (PRUNE + s)[..|s|] == s {
          assert s[6..] == (PRUNE + s[..|s| - 6])[6..];
        }
      } else {
        assert (PRUNE + s[..|s| - 6])[..6] == PRUNE;
      }
    }
  }

  function Repeat(k: nat): (s: string)
    ensures |s| == 6 * k
    ensures k > 0 ==> s[|s| - 1] == '-'
  {
    if k == 0 then "" else PRUNE + Repeat(k - 1)
  }

  lemma {:induction false} RepeatIsPower(k: nat)
    ensures PrunePower(Repeat(k))
  {
    if k > 0 {
      RepeatIsPower(k - 1);
      assert Repeat(k)[6..] == Repeat(k - 1);
    }
  }

  /** At 47 characters, for "prune" eight times over, the prune prefix no longer survives truncation
      and a prune Job passes for a backup Job of the same owner. */
  lemma ConfusedAt47(at: nat)
    ensures var name := Repeat(8)[..47];
            Confusable(name) && !HasPrefix(PruneJobName(name, at), PrunePrefix(name)) &&
            HasPrefix(PruneJobName(name, at), BackupPrefix(name))
  {
    var name := Repeat(8)[..47];
    assert name + "-" == Repeat(8);
    RepeatIsPower(8);
    PeriodIsPower(Repeat(8));
    PrunePrefixSurvives(name, at);
    PrefixShapes(name, Decimal(at));
    ShiftedPrefix(Repeat(8), Decimal(at));
    TruncationKeeps(PrunePrefix(name) + Decimal(at), BackupPrefix(name));
    CutPruneLooksLikeBackup(name, at);
  }
}
