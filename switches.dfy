/**
 * The option compiler of src/main.c (lines 279-346): init_switches turns the
 * descriptor table into getopt_long's long-option array, its short-option string,
 * and optmap, the index from a short option character to its long entry.  Boolean
 * options get a second, negated "no-NAME" entry whose value carries
 * BOOLEAN_NEG_MARKER.
 *
 * The functions below say what the three structures contain after the first n
 * descriptors have been processed; the class Switches holds the static arrays and
 * its method InitSwitches fills them, proved to agree with those functions.
 */
module Switches {
  import opened Wrappers
  import opened OptionTable
  import NoPrefix

  /** BOOLEAN_NEG_MARKER (main.c:287). */
  const BooleanNegMarker: nat := 1024

  /** The C operations on a non-negative int v: bit 10 of v. */
  predicate HasMarker(v: nat) {
    (v / BooleanNegMarker) % 2 == 1
  }

  /** v | BOOLEAN_NEG_MARKER */
  function WithMarker(v: nat): (r: nat)
    ensures HasMarker(r)
    ensures r == v || r == v + BooleanNegMarker
    ensures v < BooleanNegMarker ==> r == v + BooleanNegMarker
  {
    if HasMarker(v) then v else v + BooleanNegMarker
  }

  /** v & ~BOOLEAN_NEG_MARKER */
  function WithoutMarker(v: nat): (r: nat)
    ensures !HasMarker(r)
    ensures r == v || r + BooleanNegMarker == v
    ensures !HasMarker(v) ==> r == v
  {
    if HasMarker(v) then v - BooleanNegMarker else v
  }

  /** Masking recovers a descriptor index below the marker, whichever entry it came from. */
  lemma MarkerRoundTrip(i: nat)
    requires i < BooleanNegMarker
    ensures WithoutMarker(WithMarker(i)) == i && HasMarker(WithMarker(i))
    ensures WithoutMarker(i) == i && !HasMarker(i)
  {
  }

  /** struct option: a named entry, or the all-zero struct that static storage and xzero leave. */
  datatype LongOption = LongOption(name: string, hasArg: ArgReq, val: nat) | Zeroed

  /** An optmap cell: unsigned char. */
  type UChar = x: int | 0 <= x < 256

  /** The conversion of an int to unsigned char: the value modulo 256. */
  function ToUChar(x: nat): (r: UChar)
    ensures x < 256 ==> r == x
    ensures r == x || r < x
  {
    x % 256
  }

  /** The static optmap before init_switches runs. */
  function ZeroMap(): (m: seq<UChar>)
    ensures |m| == 96 && forall c :: 0 <= c < 96 ==> m[c] == 0
  {
    seq(96, _ => 0)
  }

  /** The has_arg init_switches gives a descriptor's own entry (main.c:311-341). */
  function HasArg(d: Descriptor): ArgReq {
    match d.kind
    case Value => RequiredArgument
    case Boolean => OptionalArgument
    case Special(_, argtype) => argtype
  }

  /** The short letter of a descriptor is followed by ':' in the short-option string. */
  predicate NeedsColon(d: Descriptor) {
    HasArg(d) == RequiredArgument
  }

  /** The long entries init_switches emits for descriptor i (main.c:299-332). */
  function EntriesFor(d: Descriptor, i: nat): seq<LongOption> {
    match d.longName
    case None => []
    case Some(name) =>
      [LongOption(name, HasArg(d), i)] +
      (if d.kind == Boolean then [LongOption("no-" + name, NoArgument, WithMarker(i))] else [])
  }

  /** long_options[0 .. o) after the first n descriptors. */
  function LongOptions(t: seq<Descriptor>, n: nat): seq<LongOption>
    requires n <= |t|
  {
    if n == 0 then [] else LongOptions(t, n - 1) + EntriesFor(t[n - 1], n - 1)
  }

  /** The letter init_switches emits for an enabled descriptor with a short name (main.c:306-310). */
  function LetterFor(d: Descriptor): string {
    if d.longName.None? || d.shortName.None? then [] else [d.shortName.value]
  }

  /** The ':' that follows the letter when the option requires an argument (main.c:314-340). */
  function ColonFor(d: Descriptor): string {
    if d.longName.None? || d.shortName.None? || !NeedsColon(d) then [] else [':']
  }

  /** The short-option characters init_switches emits for one descriptor. */
  function ShortFor(d: Descriptor): string {
    LetterFor(d) + ColonFor(d)
  }

  /** short_options[0 .. p) after the first n descriptors. */
  function ShortOptions(t: seq<Descriptor>, n: nat): string
    requires n <= |t|
  {
    if n == 0 then [] else ShortOptions(t, n - 1) + ShortFor(t[n - 1])
  }

  /** optmap after init_switches has seen descriptor d, whose first entry is long_options[k]. */
  function MapLetter(m: seq<UChar>, d: Descriptor, k: nat): (r: seq<UChar>)
    requires |m| == 96
    ensures |r| == 96
  {
    if d.longName.Some? && d.shortName.Some? then m[d.shortName.value as int - 32 := ToUChar(k)] else m
  }

  /** optmap after the first n descriptors: each short letter maps to the index of its descriptor's first entry. */
  function OptMap(t: seq<Descriptor>, n: nat): (m: seq<UChar>)
    requires n <= |t|
    ensures |m| == 96
  {
    if n == 0 then ZeroMap() else MapLetter(OptMap(t, n - 1), t[n - 1], |LongOptions(t, n - 1)|)
  }

  /** Bytes no_prefix consumes for the first n descriptors: one "no-NAME" per enabled boolean. */
  function NoBytes(t: seq<Descriptor>, n: nat): nat
    requires n <= |t|
  {
    if n == 0 then 0
    else
      var d := t[n - 1];
      NoBytes(t, n - 1) + (if d.longName.Some? && d.kind == Boolean then NoPrefix.Size(d.longName.value) else 0)
  }

  /** Where descriptor i's entries start in long_options. */
  function PositiveIndex(t: seq<Descriptor>, i: nat): nat
    requires i <= |t|
  {
    |LongOptions(t, i)|
  }

  /** Where descriptor i's letter sits in short_options. */
  function ShortPosition(t: seq<Descriptor>, i: nat): nat
    requires i <= |t|
  {
    |ShortOptions(t, i)|
  }

  /** The last enabled descriptor among the first n whose short name is c. */
  function LastWithShort(t: seq<Descriptor>, n: nat, c: ShortName): (r: Option<nat>)
    requires n <= |t|
    ensures r.Some? ==> r.value < n && t[r.value].longName.Some? && t[r.value].shortName == Some(c)
    ensures r.Some? ==> forall j :: r.value < j < n ==> !(t[j].longName.Some? && t[j].shortName == Some(c))
    ensures r.None? ==> forall j :: 0 <= j < n ==> !(t[j].longName.Some? && t[j].shortName == Some(c))
  {
    if n == 0 then None
    else if t[n - 1].longName.Some? && t[n - 1].shortName == Some(c) then Some(n - 1)
    else LastWithShort(t, n - 1, c)
  }

  /**
   * The first enabled descriptor among the first n whose short name is c: the
   * one whose letter getopt_long meets first when it scans short_options.
   */
  function FirstWithShort(t: seq<Descriptor>, n: nat, c: ShortName): (r: Option<nat>)
    requires n <= |t|
    ensures r.Some? ==> r.value < n && t[r.value].longName.Some? && t[r.value].shortName == Some(c)
    ensures r.Some? ==> forall j :: 0 <= j < r.value ==> !(t[j].longName.Some? && t[j].shortName == Some(c))
    ensures r.None? ==> forall j :: 0 <= j < n ==> !(t[j].longName.Some? && t[j].shortName == Some(c))
  {
    if n == 0 then None
    else if FirstWithShort(t, n - 1, c).Some? then FirstWithShort(t, n - 1, c)
    else if t[n - 1].longName.Some? && t[n - 1].shortName == Some(c) then Some(n - 1)
    else None
  }

  /**
   * For every letter, the first descriptor with it (whose ':' getopt_long
   * reads) and the last (whose entry optmap holds) agree on the argument.
   */
  predicate LettersAgree(t: seq<Descriptor>) {
    forall c: ShortName {:trigger FirstWithShort(t, |t|, c)} ::
      FirstWithShort(t, |t|, c).Some? ==>
        LastWithShort(t, |t|, c).Some? &&
        NeedsColon(t[FirstWithShort(t, |t|, c).value]) == NeedsColon(t[LastWithShort(t, |t|, c).value])
  }

  /**
   * The tables init_switches can build and the dispatcher can read: optmap's
   * unsigned char holds every entry index when long_options has at most 256
   * entries, and the short string plus its NUL fits short_options[128].
   */
  predicate Compilable(t: seq<Descriptor>) {
    |t| <= 128 && |ShortOptions(t, |t|)| < 128
  }

  // ---------------------------------------------------------------------------
  // Properties of the compiled structures

  /** At most two entries per descriptor, so the zero terminator fits long_options[2 * n + 1]. */
  lemma {:induction false} LongOptionsBound(t: seq<Descriptor>, n: nat)
    requires n <= |t|
    ensures |LongOptions(t, n)| <= 2 * n
  {
    if n > 0 {
      LongOptionsBound(t, n - 1);
    }
  }

  /** Processing more descriptors only appends to long_options: entry k, once written, stays. */
  lemma {:induction false} LongOptionsStable(t: seq<Descriptor>, m: nat, n: nat, k: nat)
    requires m <= n <= |t| && k < |LongOptions(t, m)|
    ensures k < |LongOptions(t, n)| && LongOptions(t, n)[k] == LongOptions(t, m)[k]
    decreases n - m
  {
    if m < n {
      LongOptionsStable(t, m, n - 1, k);
      var prev := LongOptions(t, n - 1);
      assert LongOptions(t, n) == prev + EntriesFor(t[n - 1], n - 1);
      assert (prev + EntriesFor(t[n - 1], n - 1))[k] == prev[k];
    }
  }

  /** Processing more descriptors only appends to short_options: character k, once written, stays. */
  lemma {:induction false} ShortOptionsStable(t: seq<Descriptor>, m: nat, n: nat, k: nat)
    requires m <= n <= |t| && k < |ShortOptions(t, m)|
    ensures k < |ShortOptions(t, n)| && ShortOptions(t, n)[k] == ShortOptions(t, m)[k]
    decreases n - m
  {
    if m < n {
      ShortOptionsStable(t, m, n - 1, k);
      var prev := ShortOptions(t, n - 1);
      assert ShortOptions(t, n) == prev + ShortFor(t[n - 1]);
      assert (prev + ShortFor(t[n - 1]))[k] == prev[k];
    }
  }

  /** short_options only grows. */
  lemma {:induction false} ShortOptionsGrow(t: seq<Descriptor>, m: nat, n: nat)
    requires m <= n <= |t|
    ensures |ShortOptions(t, m)| <= |ShortOptions(t, n)|
    decreases n - m
  {
    if m < n {
      ShortOptionsGrow(t, m, n - 1);
      assert ShortOptions(t, n) == ShortOptions(t, n - 1) + ShortFor(t[n - 1]);
    }
  }

  /** The bytes no_prefix has consumed only grow. */
  lemma {:induction false} NoBytesMonotone(t: seq<Descriptor>, m: nat, n: nat)
    requires m <= n <= |t|
    ensures NoBytes(t, m) <= NoBytes(t, n)
    decreases n - m
  {
    if m < n {
      NoBytesMonotone(t, m, n - 1);
    }
  }

  /**
   * Every enabled descriptor i has its entry at PositiveIndex(t, i), named by its
   * long name, with the has_arg its type calls for and val == i.
   */
  lemma EntryOf(t: seq<Descriptor>, i: nat)
    requires i < |t| && t[i].longName.Some?
    ensures PositiveIndex(t, i) < |LongOptions(t, |t|)|
    ensures LongOptions(t, |t|)[PositiveIndex(t, i)] == LongOption(t[i].longName.value, HasArg(t[i]), i)
  {
    assert LongOptions(t, i + 1) == LongOptions(t, i) + EntriesFor(t[i], i);
    LongOptionsStable(t, i + 1, |t|, PositiveIndex(t, i));
  }

  /**
   * A boolean descriptor's entry is followed by its "no-" entry, which takes no
   * argument and carries val == i | BOOLEAN_NEG_MARKER.
   */
  lemma NegatedEntryOf(t: seq<Descriptor>, i: nat)
    requires i < |t| && t[i].longName.Some? && t[i].kind == Boolean
    ensures PositiveIndex(t, i) + 1 < |LongOptions(t, |t|)|
    ensures LongOptions(t, |t|)[PositiveIndex(t, i) + 1] == LongOption("no-" + t[i].longName.value, NoArgument, WithMarker(i))
  {
    assert LongOptions(t, i + 1) == LongOptions(t, i) + EntriesFor(t[i], i);
    LongOptionsStable(t, i + 1, |t|, PositiveIndex(t, i) + 1);
  }

  /**
   * e is one of the entries init_switches makes for one of the first n
   * descriptors, the one its val names: the plain entry of an enabled descriptor
   * (val below the marker), or the "no-" entry of an enabled boolean descriptor
   * (val is the index plus the marker).
   */
  predicate EntryFrom(t: seq<Descriptor>, n: nat, e: LongOption)
    requires n <= |t|
  {
    e.LongOption? &&
    ((e.val < n && t[e.val].longName.Some? &&
      e == LongOption(t[e.val].longName.value, HasArg(t[e.val]), e.val)) ||
     (BooleanNegMarker <= e.val < BooleanNegMarker + n &&
      t[e.val - BooleanNegMarker].longName.Some? && t[e.val - BooleanNegMarker].kind == Boolean &&
      e == LongOption("no-" + t[e.val - BooleanNegMarker].longName.value, NoArgument, e.val)))
  }

  /** The entries of one descriptor are the ones their vals name. */
  lemma EntriesForFrom(t: seq<Descriptor>, i: nat, k: nat)
    requires i < |t| <= BooleanNegMarker && k < |EntriesFor(t[i], i)|
    ensures EntryFrom(t, i + 1, EntriesFor(t[i], i)[k])
  {
  }

  /**
   * Every entry of long_options is determined by its val: masking the val (with
   * MarkerRoundTrip) recovers the descriptor, and the marker bit tells the
   * negated entry from the plain one.
   */
  lemma {:induction false} EntryDetermined(t: seq<Descriptor>, n: nat, k: nat)
    requires n <= |t| <= BooleanNegMarker
    requires k < |LongOptions(t, n)|
    ensures EntryFrom(t, n, LongOptions(t, n)[k])
  {
    var prev := LongOptions(t, n - 1);
    var here := EntriesFor(t[n - 1], n - 1);
    assert LongOptions(t, n) == prev + here;
    var e := LongOptions(t, n)[k];
    if k < |prev| {
      assert e == prev[k];
      EntryDetermined(t, n - 1, k);
      EntryFromGrows(t, n - 1, n, e);
    } else {
      assert e == here[k - |prev|];
      EntriesForFrom(t, n - 1, k - |prev|);
    }
  }

  /**
   * Where each entry sits: a plain entry with val j at descriptor j's start
   * index, a "no-" entry right after it.
   */
  lemma {:induction false} EntryPosition(t: seq<Descriptor>, n: nat, k: nat)
    requires n <= |t| <= BooleanNegMarker
    requires k < |LongOptions(t, n)|
    ensures LongOptions(t, n)[k].LongOption?
    ensures var v := LongOptions(t, n)[k].val;
      (v < BooleanNegMarker ==> v < n && k == PositiveIndex(t, v)) &&
      (BooleanNegMarker <= v ==> v - BooleanNegMarker < n && k == PositiveIndex(t, v - BooleanNegMarker) + 1)
  {
    var prev := LongOptions(t, n - 1);
    var here := EntriesFor(t[n - 1], n - 1);
    assert LongOptions(t, n) == prev + here;
    if k < |prev| {
      assert (prev + here)[k] == prev[k];
      EntryPosition(t, n - 1, k);
    } else {
      assert (prev + here)[k] == here[k - |prev|];
      assert |prev| == PositiveIndex(t, n - 1);
      if k == |prev| {
        assert here[0].val == n - 1;
      } else {
        assert here[1].val == WithMarker(n - 1) == n - 1 + BooleanNegMarker;
      }
    }
  }

  /** Exactly one entry of long_options carries val i, and at most one val i | BOOLEAN_NEG_MARKER. */
  lemma EntryUnique(t: seq<Descriptor>, i: nat, k: nat)
    requires |t| <= BooleanNegMarker && i < |t| && k < |LongOptions(t, |t|)|
    ensures LongOptions(t, |t|)[k].LongOption?
    ensures LongOptions(t, |t|)[k].val == i ==> k == PositiveIndex(t, i)
    ensures LongOptions(t, |t|)[k].val == WithMarker(i) ==> k == PositiveIndex(t, i) + 1
  {
    EntryPosition(t, |t|, k);
  }

  /** An entry made from the first m descriptors is one made from any longer prefix. */
  lemma EntryFromGrows(t: seq<Descriptor>, m: nat, n: nat, e: LongOption)
    requires m <= n <= |t| && EntryFrom(t, m, e)
    ensures EntryFrom(t, n, e)
  {
  }

  /** Every enabled descriptor with a short name puts that letter in short_options. */
  lemma ShortLetterOf(t: seq<Descriptor>, i: nat)
    requires i < |t| && t[i].longName.Some? && t[i].shortName.Some?
    ensures ShortPosition(t, i) < |ShortOptions(t, |t|)|
    ensures ShortOptions(t, |t|)[ShortPosition(t, i)] == t[i].shortName.value
  {
    assert ShortOptions(t, i + 1) == ShortOptions(t, i) + ShortFor(t[i]);
    ShortOptionsStable(t, i + 1, |t|, ShortPosition(t, i));
  }

  /** The letter is followed by ':' exactly when the option requires an argument. */
  lemma ShortColonOf(t: seq<Descriptor>, i: nat)
    requires i < |t| && t[i].longName.Some? && t[i].shortName.Some?
    ensures NeedsColon(t[i]) <==>
      ShortPosition(t, i) + 1 < |ShortOptions(t, |t|)| && ShortOptions(t, |t|)[ShortPosition(t, i) + 1] == ':'
  {
    if NeedsColon(t[i]) {
      ColonFollows(t, i);
    } else {
      NothingFollows(t, i);
    }
  }

  lemma ColonFollows(t: seq<Descriptor>, i: nat)
    requires i < |t| && t[i].longName.Some? && t[i].shortName.Some? && NeedsColon(t[i])
    ensures ShortPosition(t, i) + 1 < |ShortOptions(t, |t|)| && ShortOptions(t, |t|)[ShortPosition(t, i) + 1] == ':'
  {
    var p := ShortPosition(t, i);
    var letters := ShortFor(t[i]);
    assert letters == [t[i].shortName.value] + [':'];
    assert ShortOptions(t, i + 1) == ShortOptions(t, i) + letters;
    assert ShortOptions(t, i + 1)[p + 1] == letters[1];
    ShortOptionsStable(t, i + 1, |t|, p + 1);
  }

  lemma NothingFollows(t: seq<Descriptor>, i: nat)
    requires i < |t| && t[i].longName.Some? && t[i].shortName.Some? && !NeedsColon(t[i])
    ensures ShortPosition(t, i) + 1 < |ShortOptions(t, |t|)| ==> ShortOptions(t, |t|)[ShortPosition(t, i) + 1] != ':'
  {
    var p := ShortPosition(t, i);
    assert |ShortFor(t[i])| == 1;
    assert ShortPosition(t, i + 1) == p + 1;
    if p + 1 < |ShortOptions(t, |t|)| {
      NextShortIsLetter(t, i + 1, p + 1);
    }
  }

  /** The character at a descriptor boundary of short_options is a letter, never ':'. */
  lemma {:induction false} NextShortIsLetter(t: seq<Descriptor>, n: nat, q: nat)
    requires n <= |t| && q == ShortPosition(t, n) && q < |ShortOptions(t, |t|)|
    ensures ShortOptions(t, |t|)[q] != ':'
    decreases |t| - n
  {
    if ShortFor(t[n]) == [] {
      assert ShortPosition(t, n + 1) == q;
      NextShortIsLetter(t, n + 1, q);
    } else {
      LetterAtBoundary(t, n);
    }
  }

  /** A descriptor that emits characters starts them with its letter. */
  lemma LetterAtBoundary(t: seq<Descriptor>, n: nat)
    requires n < |t| && ShortFor(t[n]) != []
    ensures ShortPosition(t, n) < |ShortOptions(t, |t|)|
    ensures ShortOptions(t, |t|)[ShortPosition(t, n)] == t[n].shortName.value
  {
    var prev := ShortOptions(t, n);
    var s := ShortFor(t[n]);
    assert ShortOptions(t, n + 1) == prev + s;
    assert (prev + s)[|prev|] == s[0] == t[n].shortName.value;
    ShortOptionsStable(t, n + 1, |t|, |prev|);
  }

  /** No letter c is emitted before the first descriptor with short name c. */
  lemma {:induction false} LetterAbsent(t: seq<Descriptor>, n: nat, c: ShortName)
    requires n <= |t| && FirstWithShort(t, n, c).None?
    ensures forall k :: 0 <= k < |ShortOptions(t, n)| ==> ShortOptions(t, n)[k] != c
  {
    if n > 0 {
      LetterAbsent(t, n - 1, c);
      var prev := ShortOptions(t, n - 1);
      var s := ShortFor(t[n - 1]);
      assert forall k :: 0 <= k < |s| ==> s[k] != c;
      assert ShortOptions(t, n) == prev + s;
      forall k | 0 <= k < |prev + s|
        ensures (prev + s)[k] != c
      {
        if k >= |prev| {
          assert (prev + s)[k] == s[k - |prev|];
        }
      }
    }
  }

  /**
   * getopt_long scans short_options from the left: the first occurrence of a
   * letter c is the letter of the first descriptor with short name c, and a ':'
   * follows it exactly when that descriptor requires an argument.
   */
  lemma GetoptFindsFirst(t: seq<Descriptor>, c: ShortName)
    requires FirstWithShort(t, |t|, c).Some?
    ensures var i := FirstWithShort(t, |t|, c).value; var s := ShortOptions(t, |t|); var q := ShortPosition(t, i);
      q < |s| && s[q] == c && (forall k :: 0 <= k < q ==> s[k] != c) &&
      (NeedsColon(t[i]) <==> q + 1 < |s| && s[q + 1] == ':')
  {
    var i := FirstWithShort(t, |t|, c).value;
    var s := ShortOptions(t, |t|);
    ShortLetterOf(t, i);
    ShortColonOf(t, i);
    LetterAbsent(t, i, c);
    forall k | 0 <= k < ShortPosition(t, i)
      ensures s[k] != c
    {
      ShortOptionsStable(t, i, |t|, k);
    }
  }

  /**
   * optmap[c - 32] holds the index of the positive entry of the last enabled
   * descriptor with short name c, so a short option never yields a "no-" entry;
   * an earlier descriptor with the same letter is overwritten.
   */
  lemma {:induction false} OptMapFindsLast(t: seq<Descriptor>, n: nat, c: ShortName)
    requires n <= |t| <= 128
    requires LastWithShort(t, n, c).Some?
    ensures var j := LastWithShort(t, n, c).value;
      OptMap(t, n)[c as int - 32] == PositiveIndex(t, j)
  {
    var j := LastWithShort(t, n, c).value;
    var d := t[n - 1];
    var prev := OptMap(t, n - 1);
    if j == n - 1 {
      LongOptionsBound(t, n - 1);
      assert OptMap(t, n)[c as int - 32] == ToUChar(|LongOptions(t, n - 1)|);
    } else {
      assert LastWithShort(t, n, c) == LastWithShort(t, n - 1, c);
      OptMapFindsLast(t, n - 1, c);
      if d.longName.Some? && d.shortName.Some? {
        assert d.shortName.value as int != c as int;
      }
      assert OptMap(t, n)[c as int - 32] == prev[c as int - 32];
    }
  }

  /** The entry a short option resolves to: the positive entry of the last descriptor with that letter. */
  lemma ShortResolves(t: seq<Descriptor>, c: ShortName)
    requires |t| <= 128
    requires LastWithShort(t, |t|, c).Some?
    ensures var j := LastWithShort(t, |t|, c).value; var k := OptMap(t, |t|)[c as int - 32];
      k < |LongOptions(t, |t|)| && LongOptions(t, |t|)[k] == LongOption(t[j].longName.value, HasArg(t[j]), j) &&
      !HasMarker(j)
  {
    var j := LastWithShort(t, |t|, c).value;
    OptMapFindsLast(t, |t|, c);
    EntryOf(t, j);
    MarkerRoundTrip(j);
  }

  /** What one pass of init_switches' loop adds, and the bounds that keep it inside the arrays. */
  lemma Step(t: seq<Descriptor>, i: nat)
    requires i < |t|
    ensures LongOptions(t, i + 1) == LongOptions(t, i) + EntriesFor(t[i], i)
    ensures ShortOptions(t, i + 1) == ShortOptions(t, i) + ShortFor(t[i])
    ensures OptMap(t, i + 1) == MapLetter(OptMap(t, i), t[i], |LongOptions(t, i)|)
    ensures NoBytes(t, i + 1) == NoBytes(t, i) + (if t[i].longName.Some? && t[i].kind == Boolean then NoPrefix.Size(t[i].longName.value) else 0)
    ensures |LongOptions(t, i + 1)| <= 2 * (i + 1)
    ensures |ShortOptions(t, i + 1)| <= |ShortOptions(t, |t|)|
    ensures NoBytes(t, i + 1) <= NoBytes(t, |t|)
  {
    LongOptionsBound(t, i + 1);
    ShortOptionsGrow(t, i + 1, |t|);
    NoBytesMonotone(t, i + 1, |t|);
  }

  // ---------------------------------------------------------------------------
  // The static arrays and init_switches

  class Switches {
    /** option_data */
    const table: seq<Descriptor>
    /** long_options[2 * countof (option_data) + 1] */
    const longOptions: array<LongOption>
    /** short_options[128] */
    const shortOptions: array<char>
    /** optmap[96] */
    const optmap: array<UChar>
    /** o: the number of long entries written */
    var count: nat
    /** p - short_options: the number of short-option characters written */
    var shortLen: nat

    ghost predicate Shaped()
      reads this
    {
      longOptions.Length == 2 * |table| + 1 && shortOptions.Length == 128 && optmap.Length == 96
    }

    /** The arrays hold what init_switches is specified to produce from the table. */
    ghost predicate Compiled()
      reads this, longOptions, shortOptions, optmap
    {
      Shaped() &&
      count < longOptions.Length && longOptions[..count] == LongOptions(table, |table|) &&
      longOptions[count] == Zeroed &&
      shortLen < shortOptions.Length && shortOptions[..shortLen] == ShortOptions(table, |table|) &&
      shortOptions[shortLen] == '\0' &&
      optmap[..] == OptMap(table, |table|)
    }

    /** The static storage: zero-filled arrays sized from the table. */
    constructor (table: seq<Descriptor>)
      ensures this.table == table && Shaped()
      ensures fresh(longOptions) && fresh(shortOptions) && fresh(optmap)
      ensures optmap[..] == ZeroMap()
    {
      this.table := table;
      longOptions := new LongOption[2 * |table| + 1](_ => Zeroed);
      shortOptions := new char[128](_ => '\0');
      optmap := new UChar[96](_ => 0);
      count := 0;
      shortLen := 0;
      new;
      assert optmap[..] == ZeroMap();
    }

    /**
     * init_switches (main.c:289-346).  The result is true when no_prefix aborted,
     * which happens exactly when the "no-" names do not fit in its buffer;
     * otherwise the three arrays hold the compiled table.
     */
    method InitSwitches(names: NoPrefix.NameBuffer) returns (aborted: bool)
      requires Shaped() && names.Valid() && optmap[..] == ZeroMap()
      requires |ShortOptions(table, |table|)| < shortOptions.Length
      requires names.buffer != shortOptions
      modifies this, longOptions, shortOptions, optmap, names, names.buffer
      ensures names.Valid()
      ensures aborted <==> old(names.p) + NoBytes(table, |table|) >= NoPrefix.BufferSize
      ensures !aborted ==> Compiled() && names.p == old(names.p) + NoBytes(table, |table|)
    {
      var o, p;
      aborted, o, p := CompileAll(names);
      if !aborted {
        Finish(o, p);
      }
    }

    /** The loop over option_data: every descriptor compiled in turn, until no_prefix aborts. */
    method CompileAll(names: NoPrefix.NameBuffer) returns (aborted: bool, o: nat, p: nat)
      requires Shaped() && names.Valid() && optmap[..] == ZeroMap()
      requires |ShortOptions(table, |table|)| < shortOptions.Length
      requires names.buffer != shortOptions
      modifies longOptions, shortOptions, optmap, names, names.buffer
      ensures names.Valid()
      ensures aborted <==> old(names.p) + NoBytes(table, |table|) >= NoPrefix.BufferSize
      ensures !aborted ==> Progress(|table|, o, p) && names.p == old(names.p) + NoBytes(table, |table|)
    {
      o, p := 0, 0;
      aborted := false;
      var i := 0;
      ghost var start := names.p;
      assert LongOptions(table, 0) == [] && ShortOptions(table, 0) == [] && OptMap(table, 0) == ZeroMap();
      assert Looping(0, o, p, names, start);
      while i < |table|
        invariant Looping(i, o, p, names, start)
      {
        aborted, o, p := CompileNext(i, o, p, names, start);
        if aborted {
          return;
        }
        i := i + 1;
      }
      assert Looping(|table|, o, p, names, start);
    }

    /** The loop's state after i descriptors, with no_prefix's cursor start bytes in when the loop began. */
    ghost predicate Looping(i: nat, o: nat, p: nat, names: NoPrefix.NameBuffer, start: nat)
      reads this, longOptions, shortOptions, optmap, names, names.buffer
    {
      i <= |table| && Shaped() && names.Valid() && names.buffer != shortOptions &&
      |ShortOptions(table, |table|)| < shortOptions.Length &&
      Progress(i, o, p) && names.p == start + NoBytes(table, i)
    }

    /** xzero (long_options[o]) and *p = '\0': the terminators after the last entry and letter. */
    method Finish(o: nat, p: nat)
      requires Shaped() && Progress(|table|, o, p)
      modifies this, longOptions, shortOptions
      ensures Compiled()
    {
      longOptions[o] := Zeroed;
      shortOptions[p] := '\0';
      count, shortLen := o, p;
    }

    /** The arrays hold what init_switches has built from the first i descriptors, at offsets o and p. */
    ghost predicate Progress(i: nat, o: nat, p: nat)
      requires i <= |table| && Shaped()
      reads this, longOptions, shortOptions, optmap
    {
      o == |LongOptions(table, i)| && o <= 2 * i && longOptions[..o] == LongOptions(table, i) &&
      p == |ShortOptions(table, i)| <= |ShortOptions(table, |table|)| && p < shortOptions.Length && shortOptions[..p] == ShortOptions(table, i) &&
      optmap[..] == OptMap(table, i)
    }

    /** One pass of the loop, stated against the table-level specification. */
    method CompileNext(i: nat, o: nat, p: nat, names: NoPrefix.NameBuffer, ghost start: nat) returns (aborted: bool, o': nat, p': nat)
      requires i < |table| && Looping(i, o, p, names, start)
      modifies longOptions, shortOptions, optmap, names, names.buffer
      ensures names.Valid()
      ensures aborted <==> start + NoBytes(table, i + 1) >= NoPrefix.BufferSize
      ensures aborted ==> start + NoBytes(table, |table|) >= NoPrefix.BufferSize
      ensures !aborted ==> Looping(i + 1, o', p', names, start)
    {
      Step(table, i);
      aborted, o', p' := CompileOne(i, o, p, names);
    }

    /**
     * One pass of init_switches' loop, for descriptor i: appends its entries to
     * long_options at o and its letters to short_options at p, points optmap at its
     * first entry, and reports whether no_prefix aborted.
     */
    method CompileOne(i: nat, o: nat, p: nat, names: NoPrefix.NameBuffer) returns (aborted: bool, o': nat, p': nat)
      requires i < |table| && Shaped() && names.Valid() && names.buffer != shortOptions
      requires o + |EntriesFor(table[i], i)| < longOptions.Length
      requires p + |ShortFor(table[i])| < shortOptions.Length
      modifies longOptions, shortOptions, optmap, names, names.buffer
      ensures names.Valid()
      ensures aborted <==> table[i].longName.Some? && table[i].kind == Boolean &&
                           old(names.p) + NoPrefix.Size(table[i].longName.value) >= NoPrefix.BufferSize
      ensures !aborted ==> o' == o + |EntriesFor(table[i], i)| && longOptions[..o'] == old(longOptions[..o]) + EntriesFor(table[i], i)
      ensures !aborted ==> p' == p + |ShortFor(table[i])| && shortOptions[..p'] == old(shortOptions[..p]) + ShortFor(table[i])
      ensures !aborted ==> optmap[..] == MapLetter(old(optmap[..]), table[i], o)
      ensures !aborted ==> names.p == old(names.p) + (if table[i].longName.Some? && table[i].kind == Boolean then NoPrefix.Size(table[i].longName.value) else 0)
    {
      var opt := table[i];
      o', p' := o, p;
      aborted := false;
      if opt.longName.None? {
        // The option is disabled.
        return;
      }
      var name := opt.longName.value;
      var longopt := o';
      o' := o' + 1;
      p' := EmitLetter(i, longopt, p');
      match opt.kind {
        case Value =>
          PutLong(longopt, LongOption(name, RequiredArgument, i));
          if opt.shortName.Some? {
            PutShort(p', ':');
            p' := p' + 1;
          }
        case Boolean =>
          aborted, o' := EmitBoolean(i, longopt, names);
        case Special(_, argtype) =>
          PutLong(longopt, LongOption(name, argtype, i));
          if opt.shortName.Some? && argtype == RequiredArgument {
            PutShort(p', ':');
            p' := p' + 1;
          }
      }
    }

    /** The short_name block of the loop: the letter goes to short_options and optmap points at long_options[longopt]. */
    method EmitLetter(i: nat, longopt: nat, p: nat) returns (p': nat)
      requires i < |table| && table[i].longName.Some? && Shaped()
      requires p + |LetterFor(table[i])| < shortOptions.Length
      modifies shortOptions, optmap
      ensures p' == p + |LetterFor(table[i])| && shortOptions[..p'] == old(shortOptions[..p]) + LetterFor(table[i])
      ensures optmap[..] == MapLetter(old(optmap[..]), table[i], longopt)
    {
      p' := p;
      var opt := table[i];
      if opt.shortName.Some? {
        PutShort(p', opt.shortName.value);
        p' := p' + 1;
        optmap[opt.shortName.value as int - 32] := ToUChar(longopt);
      }
    }

    /**
     * The OPT_BOOLEAN case: the entry at longopt takes an optional argument, and the
     * "no-" entry built by no_prefix follows it, unless no_prefix aborts.
     */
    method EmitBoolean(i: nat, longopt: nat, names: NoPrefix.NameBuffer) returns (aborted: bool, o': nat)
      requires i < |table| && table[i].longName.Some? && table[i].kind == Boolean && Shaped() && names.Valid()
      requires longopt + 2 < longOptions.Length
      modifies longOptions, names, names.buffer
      ensures names.Valid()
      ensures aborted <==> old(names.p) + NoPrefix.Size(table[i].longName.value) >= NoPrefix.BufferSize
      ensures !aborted ==> o' == longopt + 2 && names.p == old(names.p) + NoPrefix.Size(table[i].longName.value)
      ensures !aborted ==> longOptions[..o'] == old(longOptions[..longopt]) + EntriesFor(table[i], i)
    {
      var name := table[i].longName.value;
      PutLong(longopt, LongOption(name, OptionalArgument, i));
      o' := longopt + 1;
      var cp := names.NoPrefix(name);
      if cp.None? {
        return true, o';
      }
      PutLong(o', LongOption(names.buffer[cp.value..cp.value + 3 + |name|], NoArgument, WithMarker(i)));
      o' := o' + 1;
      aborted := false;
    }

    /** Fills long_options[o], keeping the entries before it. */
    method PutLong(o: nat, e: LongOption)
      requires o < longOptions.Length
      modifies longOptions
      ensures longOptions[..o + 1] == old(longOptions[..o]) + [e]
    {
      longOptions[o] := e;
    }

    /** *p++ = c, with p as an offset into short_options. */
    method PutShort(p: nat, c: char)
      requires p < shortOptions.Length
      modifies shortOptions
      ensures shortOptions[..p + 1] == old(shortOptions[..p]) + [c]
    {
      shortOptions[p] := c;
    }
  }
}
