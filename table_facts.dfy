/**
 * Facts about init_switches applied to the actual option_data table of
 * src/main.c: the table has 97 descriptors, the "no-" names fit no_prefix's
 * buffer and the short-option string fits short_options[128] in every build,
 * so init_switches never aborts; and the quirks of the table (the duplicated
 * 'Y' and "verbose", "no-no-clobber", "quota" at index '?') as the compiled
 * structures see them.
 *
 * The counts are established group by group (each group is small enough to be
 * evaluated outright) and added up over concatenation.
 */
module TableFacts {
  import opened Wrappers
  import opened OptionTable
  import opened Switches
  import NoPrefix

  // ---------------------------------------------------------------------------
  // The counts are additive over concatenation of tables

  lemma {:induction false} NoBytesPrefix(a: seq<Descriptor>, c: seq<Descriptor>, n: nat)
    requires n <= |a|
    ensures NoBytes(a + c, n) == NoBytes(a, n)
  {
    if n > 0 {
      NoBytesPrefix(a, c, n - 1);
      assert (a + c)[n - 1] == a[n - 1];
    }
  }

  /** The "no-" bytes of two tables one after the other are the sum of theirs. */
  lemma {:induction false} NoBytesAppend(a: seq<Descriptor>, c: seq<Descriptor>, n: nat)
    requires n <= |c|
    ensures NoBytes(a + c, |a| + n) == NoBytes(a, |a|) + NoBytes(c, n)
  {
    if n == 0 {
      NoBytesPrefix(a, c, |a|);
    } else {
      NoBytesAppend(a, c, n - 1);
      assert (a + c)[|a| + n - 1] == c[n - 1];
    }
  }

  /** The number of short-option characters the first n descriptors emit. */
  function Letters(t: seq<Descriptor>, n: nat): nat
    requires n <= |t|
  {
    if n == 0 then 0 else Letters(t, n - 1) + |ShortFor(t[n - 1])|
  }

  /** Letters counts the short-option string. */
  lemma {:induction false} LettersCount(t: seq<Descriptor>, n: nat)
    requires n <= |t|
    ensures Letters(t, n) == |ShortOptions(t, n)|
  {
    if n > 0 {
      LettersCount(t, n - 1);
    }
  }

  lemma {:induction false} LettersPrefix(a: seq<Descriptor>, c: seq<Descriptor>, n: nat)
    requires n <= |a|
    ensures Letters(a + c, n) == Letters(a, n)
  {
    if n > 0 {
      LettersPrefix(a, c, n - 1);
      assert (a + c)[n - 1] == a[n - 1];
    }
  }

  /** The short-option characters of two tables one after the other add up. */
  lemma {:induction false} LettersAppend(a: seq<Descriptor>, c: seq<Descriptor>, n: nat)
    requires n <= |c|
    ensures Letters(a + c, |a| + n) == Letters(a, |a|) + Letters(c, n)
  {
    if n == 0 {
      LettersPrefix(a, c, |a|);
    } else {
      LettersAppend(a, c, n - 1);
      assert (a + c)[|a| + n - 1] == c[n - 1];
    }
  }

  /** The first n descriptors are all Declared. */
  predicate AllDeclared(t: seq<Descriptor>, n: nat)
    requires n <= |t|
  {
    n == 0 || (AllDeclared(t, n - 1) && Declared(t[n - 1]))
  }

  lemma {:induction false} AllDeclaredPrefix(a: seq<Descriptor>, c: seq<Descriptor>, n: nat)
    requires n <= |a|
    ensures AllDeclared(a + c, n) == AllDeclared(a, n)
  {
    if n > 0 {
      AllDeclaredPrefix(a, c, n - 1);
      assert (a + c)[n - 1] == a[n - 1];
    }
  }

  lemma {:induction false} AllDeclaredAppend(a: seq<Descriptor>, c: seq<Descriptor>, n: nat)
    requires n <= |c|
    ensures AllDeclared(a + c, |a| + n) == (AllDeclared(a, |a|) && AllDeclared(c, n))
  {
    if n == 0 {
      AllDeclaredPrefix(a, c, |a|);
    } else {
      AllDeclaredAppend(a, c, n - 1);
      assert (a + c)[|a| + n - 1] == c[n - 1];
    }
  }

  /** AllDeclared speaks of every descriptor. */
  lemma {:induction false} AllDeclaredEach(t: seq<Descriptor>, n: nat, i: nat)
    requires n <= |t| && AllDeclared(t, n) && i < n
    ensures Declared(t[i])
  {
    if i < n - 1 {
      AllDeclaredEach(t, n - 1, i);
    }
  }

  /** The three counts of a table (descriptors, "no-" bytes, short-option characters), all of whose descriptors are Declared. */
  predicate Counts(t: seq<Descriptor>, size: nat, bytes: nat, letters: nat) {
    |t| == size && NoBytes(t, |t|) == bytes && Letters(t, |t|) == letters && AllDeclared(t, |t|)
  }

  lemma Joined(a: seq<Descriptor>, c: seq<Descriptor>, sa: nat, ba: nat, la: nat, sc: nat, bc: nat, lc: nat)
    requires Counts(a, sa, ba, la) && Counts(c, sc, bc, lc)
    ensures Counts(a + c, sa + sc, ba + bc, la + lc)
  {
    NoBytesAppend(a, c, |c|);
    LettersAppend(a, c, |c|);
    AllDeclaredAppend(a, c, |c|);
  }

  // ---------------------------------------------------------------------------
  // The counts of each group, by evaluation

  lemma Group1Counts(b: Build) ensures Counts(Group1(b), 6, 45, 8) {
    assert Counts(Group1(Build(false, false)), 6, 45, 8);
  }

  lemma Group2Counts(b: Build) ensures Counts(Group2(b), 6, 38, 3) {
    assert Counts(Group2(Build(false, false)), 6, 38, 3);
  }

  /** "debug" (main.c:171) is the only IF_DEBUG entry: a boolean with short name 'd'. */
  lemma Group3Counts(b: Build) ensures Counts(Group3(b), 6, if b.debug then 51 else 42, if b.debug then 3 else 2) {
    if b.debug {
      Group3CountsDebug();
      assert Group3(b) == Group3(Build(false, true));
    } else {
      Group3CountsPlain();
      assert Group3(b) == Group3(Build(false, false));
    }
  }

  lemma Group3CountsDebug() ensures Counts(Group3(Build(false, true)), 6, 51, 3) {
  }

  lemma Group3CountsPlain() ensures Counts(Group3(Build(false, false)), 6, 42, 2) {
  }

  lemma Group4Counts(b: Build) ensures Counts(Group4(b), 6, 13, 4) {
    assert Counts(Group4(Build(false, false)), 6, 13, 4);
  }

  lemma Group5Counts(b: Build) ensures Counts(Group5(b), 6, 49, 4) {
    assert Counts(Group5(Build(false, false)), 6, 49, 4);
  }

  lemma Group6Counts(b: Build) ensures Counts(Group6(b), 6, 57, 3) {
    assert Counts(Group6(Build(false, false)), 6, 57, 3);
  }

  lemma Group7Counts(b: Build) ensures Counts(Group7(b), 6, 36, 4) {
    assert Counts(Group7(Build(false, false)), 6, 36, 4);
  }

  lemma Group8Counts(b: Build) ensures Counts(Group8(b), 6, 34, 5) {
    assert Counts(Group8(Build(false, false)), 6, 34, 5);
  }

  lemma Group9Counts(b: Build) ensures Counts(Group9(b), 6, 46, 7) {
    assert Counts(Group9(Build(false, false)), 6, 46, 7);
  }

  lemma Group10Counts(b: Build) ensures Counts(Group10(b), 6, 24, 1) {
    assert Counts(Group10(Build(false, false)), 6, 24, 1);
  }

  lemma Group11Counts(b: Build) ensures Counts(Group11(b), 6, 24, 3) {
    assert Counts(Group11(Build(false, false)), 6, 24, 3);
  }

  lemma Group12Counts(b: Build) ensures Counts(Group12(b), 6, 66, 4) {
    assert Counts(Group12(Build(false, false)), 6, 66, 4);
  }

  lemma Group13Counts(b: Build) ensures Counts(Group13(b), 6, 87, 2) {
    assert Counts(Group13(Build(false, false)), 6, 87, 2);
  }

  /** The IF_SSL entries (main.c:236-242) are values without short names: they add nothing to either count. */
  lemma Group14Counts(b: Build) ensures Counts(Group14(b), 6, 10, 0) {
    if b.ssl {
      assert Counts(Group14(Build(true, false)), 6, 10, 0);
    } else {
      assert Counts(Group14(Build(false, false)), 6, 10, 0);
    }
  }

  lemma Group15Counts(b: Build) ensures Counts(Group15(b), 6, 35, 5) {
    if b.ssl {
      assert Counts(Group15(Build(true, false)), 6, 35, 5);
    } else {
      assert Counts(Group15(Build(false, false)), 6, 35, 5);
    }
  }

  lemma Group16Counts(b: Build) ensures Counts(Group16(b), 7, 35, 7) {
    assert Counts(Group16(Build(false, false)), 7, 35, 7);
  }

  // ---------------------------------------------------------------------------
  // The counts of the parts and of the whole table

  /** Four tables one after the other: sizes s1-s4, "no-" bytes b1-b4, short-option characters l1-l4. */
  lemma Joined4(g1: seq<Descriptor>, g2: seq<Descriptor>, g3: seq<Descriptor>, g4: seq<Descriptor>,
                s1: nat, s2: nat, s3: nat, s4: nat, b1: nat, b2: nat, b3: nat, b4: nat,
                l1: nat, l2: nat, l3: nat, l4: nat)
    requires Counts(g1, s1, b1, l1) && Counts(g2, s2, b2, l2) && Counts(g3, s3, b3, l3) && Counts(g4, s4, b4, l4)
    ensures Counts(g1 + g2 + g3 + g4, s1 + s2 + s3 + s4, b1 + b2 + b3 + b4, l1 + l2 + l3 + l4)
  {
    Joined(g1, g2, s1, b1, l1, s2, b2, l2);
    Joined(g1 + g2, g3, s1 + s2, b1 + b2, l1 + l2, s3, b3, l3);
    Joined(g1 + g2 + g3, g4, s1 + s2 + s3, b1 + b2 + b3, l1 + l2 + l3, s4, b4, l4);
  }

  lemma Part1Counts(b: Build)
    ensures Counts(OptionsPart1(b), 24, if b.debug then 147 else 138, if b.debug then 18 else 17)
  {
    Group1Counts(b);
    Group2Counts(b);
    Group3Counts(b);
    Group4Counts(b);
    Joined4(Group1(b), Group2(b), Group3(b), Group4(b), 6, 6, 6, 6,
            45, 38, if b.debug then 51 else 42, 13, 8, 3, if b.debug then 3 else 2, 4);
  }

  lemma Part2Counts(b: Build) ensures Counts(OptionsPart2(b), 24, 176, 16) {
    Group5Counts(b);
    Group6Counts(b);
    Group7Counts(b);
    Group8Counts(b);
    Joined4(Group5(b), Group6(b), Group7(b), Group8(b), 6, 6, 6, 6, 49, 57, 36, 34, 4, 3, 4, 5);
  }

  lemma Part3Counts(b: Build) ensures Counts(OptionsPart3(b), 24, 160, 15) {
    Group9Counts(b);
    Group10Counts(b);
    Group11Counts(b);
    Group12Counts(b);
    Joined4(Group9(b), Group10(b), Group11(b), Group12(b), 6, 6, 6, 6, 46, 24, 24, 66, 7, 1, 3, 4);
  }

  /** The SSL groups, whose counts do not depend on the build. */
  lemma SslGroupsCounts(b: Build) ensures Counts(Group14(b) + Group15(b), 12, 45, 5) {
    Group14Counts(b);
    Group15Counts(b);
    Joined(Group14(b), Group15(b), 6, 10, 0, 6, 35, 5);
  }

  lemma Part4Counts(b: Build) ensures Counts(OptionsPart4(b), 25, 167, 14) {
    Group13Counts(b);
    SslGroupsCounts(b);
    Group16Counts(b);
    Joined(Group13(b), Group14(b) + Group15(b), 6, 87, 2, 12, 45, 5);
    assert Group13(b) + (Group14(b) + Group15(b)) == Group13(b) + Group14(b) + Group15(b);
    Joined(Group13(b) + Group14(b) + Group15(b), Group16(b), 18, 132, 7, 7, 35, 7);
  }

  /**
   * option_data has 97 descriptors; the "no-" names take 650 bytes of no_prefix's
   * buffer with debugging support and 641 without, and the short-option string
   * has 63 or 62 characters.
   */
  lemma TableCounts(b: Build)
    ensures Counts(OptionData(b), 97, if b.debug then 650 else 641, if b.debug then 63 else 62)
  {
    Part1Counts(b);
    Part2Counts(b);
    Part3Counts(b);
    Part4Counts(b);
    Joined4(OptionsPart1(b), OptionsPart2(b), OptionsPart3(b), OptionsPart4(b), 24, 24, 24, 25,
            if b.debug then 147 else 138, 176, 160, 167, if b.debug then 18 else 17, 16, 15, 14);
  }

  // ---------------------------------------------------------------------------
  // The letters that take ':' (no letter of option_data is used both ways)

  /** The short names of option_data whose descriptors require an argument. */
  function ArgLetters(): set<int> {
    {'A' as int, 'a' as int, 'B' as int, 'P' as int, 'D' as int, 'X' as int, 'e' as int, 'G' as int, 'I' as int, 'i' as int,
     'l' as int, 'n' as int, 'O' as int, 'o' as int, 'Q' as int, 'R' as int, 'T' as int, 't' as int, 'U' as int, 'w' as int}
  }

  /** An enabled descriptor with a short name takes ':' exactly when its letter is one of ArgLetters. */
  predicate LetterFits(d: Descriptor) {
    d.longName.Some? && d.shortName.Some? ==> (NeedsColon(d) <==> d.shortName.value as int in ArgLetters())
  }

  /** The first n descriptors all fit. */
  predicate AllFit(t: seq<Descriptor>, n: nat)
    requires n <= |t|
  {
    n == 0 || (AllFit(t, n - 1) && LetterFits(t[n - 1]))
  }

  lemma {:induction false} AllFitPrefix(a: seq<Descriptor>, c: seq<Descriptor>, n: nat)
    requires n <= |a|
    ensures AllFit(a + c, n) == AllFit(a, n)
  {
    if n > 0 {
      AllFitPrefix(a, c, n - 1);
      assert (a + c)[n - 1] == a[n - 1];
    }
  }

  lemma {:induction false} AllFitAppend(a: seq<Descriptor>, c: seq<Descriptor>, n: nat)
    requires n <= |c|
    ensures AllFit(a + c, |a| + n) == (AllFit(a, |a|) && AllFit(c, n))
  {
    if n == 0 {
      AllFitPrefix(a, c, |a|);
    } else {
      AllFitAppend(a, c, n - 1);
      assert (a + c)[|a| + n - 1] == c[n - 1];
    }
  }

  lemma {:induction false} AllFitEach(t: seq<Descriptor>, n: nat, i: nat)
    requires n <= |t| && AllFit(t, n) && i < n
    ensures LetterFits(t[i])
  {
    if i < n - 1 {
      AllFitEach(t, n - 1, i);
    }
  }

  lemma FitJoined(a: seq<Descriptor>, c: seq<Descriptor>)
    requires AllFit(a, |a|) && AllFit(c, |c|)
    ensures AllFit(a + c, |a + c|)
  {
    AllFitAppend(a, c, |c|);
  }

  /** Descriptors that all fit and share a letter agree on its ':'. */
  lemma FitAgree(t: seq<Descriptor>)
    requires AllFit(t, |t|)
    ensures LettersAgree(t)
  {
    forall c: ShortName | FirstWithShort(t, |t|, c).Some?
      ensures LastWithShort(t, |t|, c).Some? &&
        NeedsColon(t[FirstWithShort(t, |t|, c).value]) == NeedsColon(t[LastWithShort(t, |t|, c).value])
    {
      AllFitEach(t, |t|, FirstWithShort(t, |t|, c).value);
      AllFitEach(t, |t|, LastWithShort(t, |t|, c).value);
    }
  }

  lemma Group1Fits(b: Build) ensures AllFit(Group1(b), 6) {
    assert AllFit(Group1(Build(false, false)), 6);
  }

  lemma Group2Fits(b: Build) ensures AllFit(Group2(b), 6) {
    assert AllFit(Group2(Build(false, false)), 6);
  }

  lemma Group3Fits(b: Build) ensures AllFit(Group3(b), 6) {
    if b.debug {
      assert AllFit(Group3(Build(false, true)), 6);
      assert Group3(b) == Group3(Build(false, true));
    } else {
      assert AllFit(Group3(Build(false, false)), 6);
      assert Group3(b) == Group3(Build(false, false));
    }
  }

  lemma Group4Fits(b: Build) ensures AllFit(Group4(b), 6) {
    assert AllFit(Group4(Build(false, false)), 6);
  }

  lemma Group5Fits(b: Build) ensures AllFit(Group5(b), 6) {
    assert AllFit(Group5(Build(false, false)), 6);
  }

  lemma Group6Fits(b: Build) ensures AllFit(Group6(b), 6) {
    assert AllFit(Group6(Build(false, false)), 6);
  }

  lemma Group7Fits(b: Build) ensures AllFit(Group7(b), 6) {
    assert AllFit(Group7(Build(false, false)), 6);
  }

  lemma Group8Fits(b: Build) ensures AllFit(Group8(b), 6) {
    assert AllFit(Group8(Build(false, false)), 6);
  }

  lemma Group9Fits(b: Build) ensures AllFit(Group9(b), 6) {
    assert AllFit(Group9(Build(false, false)), 6);
  }

  lemma Group10Fits(b: Build) ensures AllFit(Group10(b), 6) {
    assert AllFit(Group10(Build(false, false)), 6);
  }

  lemma Group11Fits(b: Build) ensures AllFit(Group11(b), 6) {
    assert AllFit(Group11(Build(false, false)), 6);
  }

  lemma Group12Fits(b: Build) ensures AllFit(Group12(b), 6) {
    assert AllFit(Group12(Build(false, false)), 6);
  }

  lemma Group13Fits(b: Build) ensures AllFit(Group13(b), 6) {
    assert AllFit(Group13(Build(false, false)), 6);
  }

  lemma Group14Fits(b: Build) ensures AllFit(Group14(b), 6) {
    if b.ssl {
      assert AllFit(Group14(Build(true, false)), 6);
    } else {
      assert AllFit(Group14(Build(false, false)), 6);
    }
  }

  lemma Group15Fits(b: Build) ensures AllFit(Group15(b), 6) {
    if b.ssl {
      assert AllFit(Group15(Build(true, false)), 6);
    } else {
      assert AllFit(Group15(Build(false, false)), 6);
    }
  }

  lemma Group16Fits(b: Build) ensures AllFit(Group16(b), 7) {
    assert AllFit(Group16(Build(false, false)), 7);
  }

  lemma Part1Fits(b: Build) ensures AllFit(OptionsPart1(b), |OptionsPart1(b)|) {
    Group1Fits(b);
    Group2Fits(b);
    Group3Fits(b);
    Group4Fits(b);
    FitJoined(Group1(b), Group2(b));
    FitJoined(Group1(b) + Group2(b), Group3(b));
    FitJoined(Group1(b) + Group2(b) + Group3(b), Group4(b));
  }

  lemma Part2Fits(b: Build) ensures AllFit(OptionsPart2(b), |OptionsPart2(b)|) {
    Group5Fits(b);
    Group6Fits(b);
    Group7Fits(b);
    Group8Fits(b);
    FitJoined(Group5(b), Group6(b));
    FitJoined(Group5(b) + Group6(b), Group7(b));
    FitJoined(Group5(b) + Group6(b) + Group7(b), Group8(b));
  }

  lemma Part3Fits(b: Build) ensures AllFit(OptionsPart3(b), |OptionsPart3(b)|) {
    Group9Fits(b);
    Group10Fits(b);
    Group11Fits(b);
    Group12Fits(b);
    FitJoined(Group9(b), Group10(b));
    FitJoined(Group9(b) + Group10(b), Group11(b));
    FitJoined(Group9(b) + Group10(b) + Group11(b), Group12(b));
  }

  lemma Part4Fits(b: Build) ensures AllFit(OptionsPart4(b), |OptionsPart4(b)|) {
    Group13Fits(b);
    Group14Fits(b);
    Group15Fits(b);
    Group16Fits(b);
    FitJoined(Group13(b), Group14(b));
    FitJoined(Group13(b) + Group14(b), Group15(b));
    FitJoined(Group13(b) + Group14(b) + Group15(b), Group16(b));
  }

  /** In every build the descriptors of option_data that share a letter (only 'Y', main.c:216 and 247) agree on its ':'. */
  lemma TableLettersAgree(b: Build)
    ensures LettersAgree(OptionData(b))
  {
    Part1Fits(b);
    Part2Fits(b);
    Part3Fits(b);
    Part4Fits(b);
    FitJoined(OptionsPart1(b), OptionsPart2(b));
    FitJoined(OptionsPart1(b) + OptionsPart2(b), OptionsPart3(b));
    FitJoined(OptionsPart1(b) + OptionsPart2(b) + OptionsPart3(b), OptionsPart4(b));
    FitAgree(OptionData(b));
  }

  /**
   * In every build the table fits the static arrays: the short-option string and
   * its NUL fit short_options[128], every long entry index fits optmap's unsigned
   * char, and the "no-" names fit no_prefix's 1024-byte buffer from its start, so
   * no_prefix never aborts.
   */
  lemma TableFits(b: Build)
    ensures Compilable(OptionData(b))
    ensures NoBytes(OptionData(b), |OptionData(b)|) < NoPrefix.BufferSize
    ensures forall i :: 0 <= i < |OptionData(b)| ==> Declared(OptionData(b)[i])
  {
    TableCounts(b);
    LettersCount(OptionData(b), |OptionData(b)|);
    forall i | 0 <= i < |OptionData(b)|
      ensures Declared(OptionData(b)[i])
    {
      AllDeclaredEach(OptionData(b), |OptionData(b)|, i);
    }
  }

  /**
   * init_switches as main calls it: over the static storage, zero-filled, with
   * no_prefix's buffer untouched.  It never aborts, and it leaves the arrays
   * holding the compiled option_data.
   */
  method Startup(b: Build) returns (s: Switches, names: NoPrefix.NameBuffer)
    ensures s.table == OptionData(b) && s.Compiled()
    ensures names.Valid() && names.p == NoBytes(OptionData(b), |OptionData(b)|)
  {
    TableFits(b);
    s := new Switches(OptionData(b));
    names := new NoPrefix.NameBuffer();
    var aborted := s.InitSwitches(names);
    assert !aborted;
  }

  // ---------------------------------------------------------------------------
  // Individual descriptors

  /** Indexing into four tables one after the other. */
  lemma At4(g1: seq<Descriptor>, g2: seq<Descriptor>, g3: seq<Descriptor>, g4: seq<Descriptor>, i: nat)
    requires i < |g1| + |g2| + |g3| + |g4|
    ensures (g1 + g2 + g3 + g4)[i] ==
      if i < |g1| then g1[i]
      else if i < |g1| + |g2| then g2[i - |g1|]
      else if i < |g1| + |g2| + |g3| then g3[i - |g1| - |g2|]
      else g4[i - |g1| - |g2| - |g3|]
  {
  }

  lemma PartLengths(b: Build)
    ensures |OptionsPart1(b)| == 24 && |OptionsPart2(b)| == 24 && |OptionsPart3(b)| == 24 && |OptionsPart4(b)| == 25
    ensures |OptionData(b)| == 97
  {
    Part1Counts(b);
    Part2Counts(b);
    Part3Counts(b);
    Part4Counts(b);
  }

  /** Descriptors 48-71 are those of part 3. */
  lemma InPart3(b: Build, i: nat)
    requires 48 <= i < 72
    ensures |OptionData(b)| == 97 && OptionData(b)[i] == OptionsPart3(b)[i - 48]
  {
    PartLengths(b);
    At4(OptionsPart1(b), OptionsPart2(b), OptionsPart3(b), OptionsPart4(b), i);
  }

  /** Descriptors 72-96 are those of part 4. */
  lemma InPart4(b: Build, i: nat)
    requires 72 <= i < 97
    ensures |OptionData(b)| == 97 && OptionData(b)[i] == OptionsPart4(b)[i - 72]
  {
    PartLengths(b);
    At4(OptionsPart1(b), OptionsPart2(b), OptionsPart3(b), OptionsPart4(b), i);
  }

  lemma Part3At(b: Build, k: nat)
    requires 12 <= k < 18
    ensures |OptionsPart3(b)| == 24 && OptionsPart3(b)[k] == Group11(b)[k - 12]
  {
    At4(Group9(b), Group10(b), Group11(b), Group12(b), k);
  }

  lemma QuotaInGroup11(b: Build)
    ensures |Group11(b)| == 6 && Group11(b)[3] == Descriptor(Some("quota"), Some('Q'), Value, Some("quota"))
  {
  }

  /** "quota" (main.c:220) sits at index 63, which is the character code of '?'. */
  lemma QuotaAtQuestionMark(b: Build)
    ensures |OptionData(b)| == 97
    ensures OptionData(b)[63] == Descriptor(Some("quota"), Some('Q'), Value, Some("quota"))
    ensures 63 == '?' as int
  {
    InPart3(b, 63);
    Part3At(b, 15);
    QuotaInGroup11(b);
  }

  // ---------------------------------------------------------------------------
  // Duplicated short names: the later descriptor owns the letter

  /** The last descriptor with a given letter, found in the second of two tables. */
  lemma {:induction false} LastWithShortAppend(a: seq<Descriptor>, c: seq<Descriptor>, n: nat, ch: ShortName)
    requires n <= |c| && LastWithShort(c, n, ch).Some?
    ensures LastWithShort(a + c, |a| + n, ch) == Some(|a| + LastWithShort(c, n, ch).value)
  {
    assert (a + c)[|a| + n - 1] == c[n - 1];
    if LastWithShort(c, n, ch).value < n - 1 {
      LastWithShortAppend(a, c, n - 1, ch);
    }
  }

  lemma Group16Letters(b: Build)
    ensures |Group16(b)| == 7
    ensures LastWithShort(Group16(b), 7, 'Y') == Some(0)
    ensures LastWithShort(Group16(b), 7, 'v') == Some(2)
  {
  }

  /** A letter of the last group is owned by a descriptor of that group, at index 90 + its place. */
  lemma LastInGroup16(b: Build, ch: ShortName)
    requires LastWithShort(Group16(b), 7, ch).Some?
    ensures |OptionData(b)| == 97
    ensures LastWithShort(OptionData(b), 97, ch) == Some(90 + LastWithShort(Group16(b), 7, ch).value)
  {
    PartLengths(b);
    Group16Letters(b);
    var front4 := Group13(b) + Group14(b) + Group15(b);
    assert |front4| == 18;
    LastWithShortAppend(front4, Group16(b), 7, ch);
    var front := OptionsPart1(b) + OptionsPart2(b) + OptionsPart3(b);
    LastWithShortAppend(front, OptionsPart4(b), 25, ch);
  }

  lemma Group10At5(b: Build)
    ensures |Group10(b)| == 6 && Group10(b)[5] == Descriptor(Some("proxy"), Some('Y'), Boolean, Some("useproxy"))
  {
  }

  lemma Group16Heads(b: Build)
    ensures |Group16(b)| == 7
    ensures Group16(b)[0] == Descriptor(Some("use-proxy"), Some('Y'), Boolean, Some("useproxy"))
    ensures Group16(b)[2] == Descriptor(Some("verbose"), Some('v'), Boolean, Some("verbose"))
    ensures Group16(b)[3] == Descriptor(Some("verbose"), None, Boolean, Some("verbose"))
  {
  }

  lemma Part4At(b: Build, k: nat)
    requires 18 <= k < 25
    ensures |OptionsPart4(b)| == 25 && OptionsPart4(b)[k] == Group16(b)[k - 18]
  {
    At4(Group13(b), Group14(b), Group15(b), Group16(b), k);
  }

  /**
   * 'Y' is the short name of both "proxy" (main.c:216) and "use-proxy" (main.c:247);
   * the later one owns the letter, so optmap sends -Y to use-proxy's entry.
   */
  lemma ShortYTwice(b: Build)
    ensures |OptionData(b)| == 97
    ensures OptionData(b)[59] == Descriptor(Some("proxy"), Some('Y'), Boolean, Some("useproxy"))
    ensures OptionData(b)[90] == Descriptor(Some("use-proxy"), Some('Y'), Boolean, Some("useproxy"))
    ensures LastWithShort(OptionData(b), 97, 'Y') == Some(90)
  {
    InPart3(b, 59);
    At4(Group9(b), Group10(b), Group11(b), Group12(b), 11);
    Group10At5(b);
    InPart4(b, 90);
    Part4At(b, 18);
    Group16Heads(b);
    Group16Letters(b);
    LastInGroup16(b, 'Y');
  }

  /**
   * "verbose" is described twice (main.c:249-250), so long_options holds two
   * distinct "verbose" entries; the letter 'v' belongs to the first of the two.
   */
  lemma VerboseTwice(b: Build)
    ensures |OptionData(b)| == 97
    ensures OptionData(b)[92] == Descriptor(Some("verbose"), Some('v'), Boolean, Some("verbose"))
    ensures OptionData(b)[93] == Descriptor(Some("verbose"), None, Boolean, Some("verbose"))
    ensures LastWithShort(OptionData(b), 97, 'v') == Some(92)
  {
    InPart4(b, 92);
    InPart4(b, 93);
    Part4At(b, 20);
    Part4At(b, 21);
    Group16Heads(b);
    Group16Letters(b);
    LastInGroup16(b, 'v');
  }

  // ---------------------------------------------------------------------------
  // Descriptors of part 3 named by the dispatcher's facts

  lemma Group9Heads(b: Build)
    ensures |Group9(b)| == 6
    ensures Group9(b)[1] == Descriptor(Some("no-clobber"), None, Boolean, Some("noclobber"))
    ensures Group9(b)[2] == Descriptor(Some("no-parent"), None, Boolean, Some("noparent"))
  {
  }

  lemma Group10Head(b: Build)
    ensures |Group10(b)| == 6 && Group10(b)[0] == Descriptor(Some("parent"), None, Special(Parent, OptionalArgument), None)
  {
  }

  /** "no-clobber" (main.c:206) is itself boolean, so init_switches also emits "no-no-clobber". */
  lemma NoClobberIsBoolean(b: Build)
    ensures |OptionData(b)| == 97
    ensures OptionData(b)[49] == Descriptor(Some("no-clobber"), None, Boolean, Some("noclobber"))
  {
    InPart3(b, 49);
    At4(Group9(b), Group10(b), Group11(b), Group12(b), 1);
    Group9Heads(b);
  }

  /** "no-parent" (main.c:207) is a boolean on the wgetrc command noparent; "parent" (main.c:211) is the inverted special. */
  lemma ParentDescriptors(b: Build)
    ensures |OptionData(b)| == 97
    ensures OptionData(b)[50] == Descriptor(Some("no-parent"), None, Boolean, Some("noparent"))
    ensures OptionData(b)[54] == Descriptor(Some("parent"), None, Special(Parent, OptionalArgument), None)
  {
    InPart3(b, 50);
    InPart3(b, 54);
    At4(Group9(b), Group10(b), Group11(b), Group12(b), 2);
    At4(Group9(b), Group10(b), Group11(b), Group12(b), 6);
    Group9Heads(b);
    Group10Head(b);
  }

  lemma Group2At2(b: Build)
    ensures |Group2(b)| == 6 && Group2(b)[2] == Descriptor(Some("clobber"), None, Special(Clobber, OptionalArgument), None)
  {
  }

  /** "clobber" (main.c:165) is the special whose argument --no-clobber's command takes inverted. */
  lemma ClobberDescriptor(b: Build)
    ensures |OptionData(b)| == 97
    ensures OptionData(b)[8] == Descriptor(Some("clobber"), None, Special(Clobber, OptionalArgument), None)
  {
    PartLengths(b);
    At4(OptionsPart1(b), OptionsPart2(b), OptionsPart3(b), OptionsPart4(b), 8);
    Part1Counts(b);
    Group1Counts(b);
    At4(Group1(b), Group2(b), Group3(b), Group4(b), 8);
    Group2At2(b);
  }
}
