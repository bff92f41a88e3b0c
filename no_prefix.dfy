/**
 * no_prefix (src/main.c:259-277): builds "no-NAME" names for the negated boolean
 * options in a static 1024-byte buffer, handing out successive regions of it and
 * aborting when a name would reach the end of the buffer.
 */
module NoPrefix {
  import opened Wrappers

  /** sizeof (buffer) */
  const BufferSize: nat := 1024

  /** Bytes one call consumes: "no-", the name, and the terminating NUL. */
  function Size(s: string): nat {
    3 + |s| + 1
  }

  /** The string a successful call leaves at its region, terminator included. */
  function Stored(s: string): string {
    "no-" + s + "\0"
  }

  /** Bytes the calls for `names` consume together: where the next region starts. */
  ghost function Used(names: seq<string>): nat {
    if names == [] then 0 else Used(names[..|names| - 1]) + Size(names[|names| - 1])
  }

  /**
   * Successive results occupy disjoint, increasing regions: the region of the j-th
   * successful call, starting at Used(names[..j]), ends before the k-th one starts.
   */
  lemma {:induction false} RegionsIncrease(names: seq<string>, j: nat, k: nat)
    requires j < k <= |names|
    ensures Used(names[..j]) + Size(names[j]) <= Used(names[..k])
    decreases k - j
  {
    assert names[..k][..k - 1] == names[..k - 1];
    if j + 1 < k {
      RegionsIncrease(names, j, k - 1);
    } else {
      assert names[..j + 1][..j] == names[..j];
    }
  }

  class NameBuffer {
    /** The static buffer. */
    const buffer: array<char>
    /** The static cursor, as an offset from the start of the buffer. */
    var p: nat
    /** The names handed to successful calls, in order. */
    ghost var names: seq<string>

    ghost predicate Valid()
      reads this, buffer
    {
      buffer.Length == BufferSize &&
      p < BufferSize &&
      p == Used(names)
    }

    /** The zero-initialised static storage, cursor at the start of the buffer. */
    constructor ()
      ensures Valid() && fresh(buffer)
      ensures p == 0 && names == []
    {
      buffer := new char[BufferSize](_ => '\0');
      p := 0;
      names := [];
    }

    /**
     * no_prefix (s).  None stands for abort (): the call fails, writing nothing,
     * exactly when p + size >= buffer + sizeof (buffer).  Otherwise the result is the
     * old cursor, "no-" + s followed by NUL is stored there, and the cursor moves past it.
     */
    method NoPrefix(s: string) returns (r: Option<nat>)
      requires Valid()
      modifies this, buffer
      ensures Valid()
      ensures r.None? <==> old(p) + Size(s) >= BufferSize
      ensures r.None? ==> p == old(p) && names == old(names) && buffer[..] == old(buffer[..])
      ensures r.Some? ==> r.value == old(p) && p == old(p) + Size(s)
      ensures r.Some? ==> names == old(names) + [s]
      ensures r.Some? ==> buffer[r.value..r.value + Size(s)] == Stored(s)
      ensures r.Some? ==> buffer[r.value..r.value + 3 + |s|] == "no-" + s
      ensures buffer[..old(p)] == old(buffer[..p])
    {
      var cp := p;
      var size := 3 + |s| + 1;
      if p + size >= buffer.Length {
        return None;
      }
      Store(cp, s);
      assert buffer[cp..cp + 3 + |s|] == buffer[cp..cp + size][..3 + |s|];
      assert (names + [s])[..|names|] == names;
      p := p + size;
      names := names + [s];
      r := Some(cp);
    }

    /** The three stores and the strcpy: Stored(s) is written at cp, nothing else changes. */
    method Store(cp: nat, s: string)
      requires buffer.Length == BufferSize && cp + Size(s) <= buffer.Length
      modifies buffer
      ensures buffer[cp..cp + Size(s)] == Stored(s)
      ensures buffer[..cp] == old(buffer[..cp])
      ensures buffer[cp + Size(s)..] == old(buffer[cp + Size(s)..])
    {
      buffer[cp] := 'n';
      buffer[cp + 1] := 'o';
      buffer[cp + 2] := '-';
      var j := 0;
      while j < |s|
        invariant 0 <= j <= |s|
        invariant buffer[cp..cp + 3 + j] == "no-" + s[..j]
        invariant buffer[..cp] == old(buffer[..cp])
        invariant buffer[cp + Size(s)..] == old(buffer[cp + Size(s)..])
      {
        buffer[cp + 3 + j] := s[j];
        j := j + 1;
      }
      buffer[cp + 3 + |s|] := '\0';
      assert s[..j] == s;
    }
  }
}
