/** The streaming filter that drops bidi isolate controls from terminal output. */
module TerminalOutput {
  import opened Bytes
  import Utf8

  const LEAD: byte := 0xE2
  const SECOND: byte := 0x81
  const MIN_LAST: byte := 0xA6
  const MAX_LAST: byte := 0xA9

  /** What a whole byte string turns into: the bytes let through, and a tail that may still become an isolate. */
  datatype Filtered = Filtered(out: seq<byte>, rest: seq<byte>)

  /** A string that more bytes could complete to an isolate. */
  predicate MayBecomeIsolate(s: seq<byte>) {
    1 <= |s| <= 2 && s[0] == LEAD && (|s| == 2 ==> s[1] == SECOND)
  }

  predicate StartsWithIsolate(s: seq<byte>) {
    |s| >= 3 && s[0] == LEAD && s[1] == SECOND && MIN_LAST <= s[2] <= MAX_LAST
  }

  function FilterOf(s: seq<byte>): (r: Filtered)
    ensures r.rest == [] || MayBecomeIsolate(r.rest)
    decreases |s|
  {
    if s == [] || MayBecomeIsolate(s) then Filtered([], s)
    else if StartsWithIsolate(s) then FilterOf(s[3..])
    else After([s[0]], FilterOf(s[1..]))
  }

  /** The result `f` preceded by the output `out`. */
  function After(out: seq<byte>, f: Filtered): Filtered {
    Filtered(out + f.out, f.rest)
  }

  lemma AfterAfter(a: seq<byte>, b: seq<byte>, f: Filtered)
    ensures After(a, After(b, f)) == After(a + b, f)
    ensures After([], f) == f
  {
    assert a + (b + f.out) == (a + b) + f.out;
    assert [] + f.out == f.out;
  }

  /** The filter decides about the first bytes of `a` without looking at what follows `a`. */
  lemma FilterStep(a: seq<byte>, b: seq<byte>)
    requires a != [] && !MayBecomeIsolate(a)
    ensures StartsWithIsolate(a) ==> FilterOf(a + b) == FilterOf(a[3..] + b)
    ensures !StartsWithIsolate(a) ==> FilterOf(a + b) == After([a[0]], FilterOf(a[1..] + b))
  {
    var s := a + b;
    assert s[0] == a[0];
    if StartsWithIsolate(a) {
      assert StartsWithIsolate(s);
      assert s[3..] == a[3..] + b;
    } else {
      assert s[1..] == a[1..] + b;
      assert !MayBecomeIsolate(s) && !StartsWithIsolate(s);
    }
  }

  /** Filtering `a` and then `b` is filtering `a + b`, wherever the cut falls. */
  lemma {:induction false} FilterResumes(a: seq<byte>, b: seq<byte>)
    ensures FilterOf(a + b) == After(FilterOf(a).out, FilterOf(FilterOf(a).rest + b))
    decreases |a|
  {
    if a == [] || MayBecomeIsolate(a) {
      AfterAfter([], [], FilterOf(a + b));
    } else {
      FilterStep(a, b);
      if StartsWithIsolate(a) {
        FilterResumes(a[3..], b);
      } else {
        FilterResumes(a[1..], b);
        AfterAfter([a[0]], FilterOf(a[1..]).out, FilterOf(FilterOf(a[1..]).rest + b));
      }
    }
  }

  lemma ResumeChunk(pending: seq<byte>, chunk: seq<byte>, tail: seq<byte>)
    ensures var first := FilterOf(pending + chunk);
            FilterOf(pending + (chunk + tail)) == After(first.out, FilterOf(first.rest + tail))
  {
    ConcatAssociates(pending, chunk, tail);
    FilterResumes(pending + chunk, tail);
  }

  /** The stream as the source sees it: each chunk filtered with what the previous ones left pending. */
  function FilterChunks(pending: seq<byte>, chunks: seq<seq<byte>>): Filtered
    decreases |chunks|
  {
    if chunks == [] then Filtered([], pending)
    else
      var first := FilterOf(pending + chunks[0]);
      After(first.out, FilterChunks(first.rest, chunks[1..]))
  }

  /** Any byte string, any way of cutting it: the same output and the same pending bytes as one call. */
  lemma {:induction false} ChunkingIsInvisible(pending: seq<byte>, chunks: seq<seq<byte>>)
    requires pending == [] || MayBecomeIsolate(pending)
    ensures FilterChunks(pending, chunks) == FilterOf(pending + Flatten(chunks))
    decreases |chunks|
  {
    if chunks == [] {
      assert pending + Flatten(chunks) == pending;
    } else {
      ChunkingIsInvisible(FilterOf(pending + chunks[0]).rest, chunks[1..]);
      ResumeChunk(pending, chunks[0], Flatten(chunks[1..]));
    }
  }

  predicate IsIsolate(c: char) {
    0x2066 <= c as int <= 0x2069
  }

  /** `stripBidiIsolates`: complete text without U+2066 to U+2069. */
  function StripBidiIsolates(text: string): string {
    if text == [] then []
    else (if IsIsolate(text[0]) then [] else [text[0]]) + StripBidiIsolates(text[1..])
  }

  /** Among well-formed characters exactly the isolates encode to the filtered triples. */
  lemma EncodingOfIsolate(c: char)
    ensures IsIsolate(c) <==> StartsWithIsolate(Utf8.Encode(c))
    ensures IsIsolate(c) ==> |Utf8.Encode(c)| == 3
    ensures forall k :: 0 < k < |Utf8.Encode(c)| ==> Utf8.Encode(c)[k] != LEAD
    ensures Utf8.Encode(c)[0] == LEAD ==> |Utf8.Encode(c)| == 3
  {
  }

  /** Bytes that start no isolate pass through unchanged. */
  lemma {:induction false} PassesThrough(s: seq<byte>, tail: seq<byte>)
    requires forall k :: 0 <= k < |s| ==> s[k] != LEAD
    ensures FilterOf(s + tail) == After(s, FilterOf(tail))
  {
    if s == [] {
      assert s + tail == tail;
      AfterAfter([], [], FilterOf(tail));
    } else {
      PassesThrough(s[1..], tail);
      FilterStep(s, tail);
      AfterAfter([s[0]], s[1..], FilterOf(tail));
      assert s == [s[0]] + s[1..];
    }
  }

  lemma CharacterPasses(c: char, tail: seq<byte>)
    ensures FilterOf(Utf8.Encode(c) + tail)
         == After(if IsIsolate(c) then [] else Utf8.Encode(c), FilterOf(tail))
  {
    var e := Utf8.Encode(c);
    EncodingOfIsolate(c);
    FilterStep(e, tail);
    if IsIsolate(c) {
      assert e[3..] + tail == tail;
      AfterAfter([], [], FilterOf(tail));
    } else {
      PassesThrough(e[1..], tail);
      AfterAfter([e[0]], e[1..], FilterOf(tail));
      assert e == [e[0]] + e[1..];
    }
  }

  /** On well-formed UTF-8 the byte filter is the text filter, and nothing stays pending. */
  lemma {:induction false} FilterStripsIsolates(text: string)
    ensures FilterOf(Utf8.EncodeText(text)) == Filtered(Utf8.EncodeText(StripBidiIsolates(text)), [])
  {
    if text != [] {
      FilterStripsIsolates(text[1..]);
      CharacterPasses(text[0], Utf8.EncodeText(text[1..]));
      var rest := StripBidiIsolates(text[1..]);
      if !IsIsolate(text[0]) {
        assert ([text[0]] + rest)[1..] == rest;
      } else {
        assert [] + rest == rest;
      }
    }
  }

  /** However encoded text is cut into chunks, the stream yields the encoding of the stripped text. */
  lemma StreamStripsIsolates(text: string, chunks: seq<seq<byte>>)
    requires Flatten(chunks) == Utf8.EncodeText(text)
    ensures FilterChunks([], chunks) == Filtered(Utf8.EncodeText(StripBidiIsolates(text)), [])
  {
    ChunkingIsInvisible([], chunks);
    assert [] + Flatten(chunks) == Flatten(chunks);
    FilterStripsIsolates(text);
  }

  // What the filter removes from any bytes, well-formed or not.

  /** The encoding of U+2066, U+2067, U+2068 or U+2069 is here. */
  predicate TripleAt(s: seq<byte>, i: int) {
    0 <= i && i + 2 < |s| && s[i] == 0xE2 && s[i + 1] == 0x81 && s[i + 2] in {0xA6, 0xA7, 0xA8, 0xA9}
  }

  predicate InTriple(s: seq<byte>, i: int) {
    TripleAt(s, i) || TripleAt(s, i - 1) || TripleAt(s, i - 2)
  }

  /** The bytes from position `i` on that are in no such triple. */
  function Others(s: seq<byte>, i: nat): seq<byte>
    requires i <= |s|
    decreases |s| - i
  {
    if i == |s| then [] else (if InTriple(s, i) then [] else [s[i]]) + Others(s, i + 1)
  }

  lemma {:induction false} KeepsOthers(s: seq<byte>, i: nat)
    requires i <= |s| && !TripleAt(s, i - 1) && !TripleAt(s, i - 2)
    ensures FilterOf(s[i..]).out + FilterOf(s[i..]).rest == Others(s, i)
    decreases |s| - i
  {
    var t := s[i..];
    if t == [] {
    } else if MayBecomeIsolate(t) {
      if |t| == 2 { assert Others(s, i + 1) == [s[i + 1]] + Others(s, i + 2); }
      assert t == Others(s, i);
    } else if TripleAt(s, i) {
      SkipsIsolate(s, i);
      KeepsOthers(s, i + 3);
      assert Others(s, i) == Others(s, i + 1) == Others(s, i + 2) == Others(s, i + 3);
    } else {
      KeepsByte(s, i, []);
      KeepsOthers(s, i + 1);
    }
  }

  /** What is held back is the longest end of the input that more bytes could complete to an isolate. */
  lemma {:induction false} HoldsBack(s: seq<byte>)
    ensures FilterOf(s).rest ==
              if |s| >= 1 && s[|s| - 1] == 0xE2 then [0xE2]
              else if |s| >= 2 && s[|s| - 2] == 0xE2 && s[|s| - 1] == 0x81 then [0xE2, 0x81]
              else []
    decreases |s|
  {
    if s == [] || MayBecomeIsolate(s) {
    } else if StartsWithIsolate(s) {
      HoldsBack(s[3..]);
    } else {
      HoldsBack(s[1..]);
    }
  }

  /**
   * Of any bytes exactly the isolates' triples go, everything else stays in order, and only an end that may still
   * become one waits.
   */
  lemma FilterRemovesTriples(s: seq<byte>)
    ensures FilterOf(s).out + FilterOf(s).rest == Others(s, 0)
    ensures FilterOf(s).rest ==
              if |s| >= 1 && s[|s| - 1] == 0xE2 then [0xE2]
              else if |s| >= 2 && s[|s| - 2] == 0xE2 && s[|s| - 1] == 0x81 then [0xE2, 0x81]
              else []
  {
    assert s[0..] == s;
    KeepsOthers(s, 0);
    HoldsBack(s);
  }

  /** In malformed bytes the output may hold an isolate that the input did not: its parts closed up. */
  lemma MalformedMayFormIsolate()
    ensures FilterOf([0xE2, 0xE2, 0x81, 0xA6, 0x81, 0xA6]) == Filtered([0xE2, 0x81, 0xA6], [])
    ensures StartsWithIsolate([0xE2, 0x81, 0xA6])
  {
    var bytes: seq<byte> := [0xE2, 0xE2, 0x81, 0xA6, 0x81, 0xA6];
    KeepsByte(bytes, 0, []);
    AfterAfter([], [], FilterOf(bytes));
    SkipsIsolate(bytes, 1);
    KeepsByte(bytes, 4, [0xE2]);
    KeepsByte(bytes, 5, [0xE2, 0x81]);
    AtEnd(bytes, 6, [0xE2, 0x81, 0xA6]);
    assert bytes[0..] == bytes && [] + [bytes[0]] == [0xE2];
  }

  // The three ways the copying loop of the filter moves on.

  lemma SkipsIsolate(input: seq<byte>, read: nat)
    requires read <= |input| && StartsWithIsolate(input[read..])
    ensures FilterOf(input[read..]) == FilterOf(input[read + 3..])
  {
    assert input[read..][3..] == input[read + 3..];
  }

  lemma KeepsByte(input: seq<byte>, read: nat, done: seq<byte>)
    requires read < |input| && !MayBecomeIsolate(input[read..]) && !StartsWithIsolate(input[read..])
    ensures After(done, FilterOf(input[read..])) == After(done + [input[read]], FilterOf(input[read + 1..]))
  {
    assert input[read..][1..] == input[read + 1..];
    AfterAfter(done, [input[read]], FilterOf(input[read + 1..]));
  }

  lemma AtEnd(input: seq<byte>, read: nat, done: seq<byte>)
    requires read <= |input| && (read == |input| || MayBecomeIsolate(input[read..]))
    ensures After(done, FilterOf(input[read..])) == Filtered(done, input[read..])
  {
    assert done + [] == done;
  }

  lemma StaysPending(pending: seq<byte>)
    requires pending == [] || MayBecomeIsolate(pending)
    ensures FilterOf(pending) == Filtered([], pending)
  {
  }

  class TerminalOutputFilter {
    var pending: seq<byte>

    ghost predicate Valid()
      reads this
    {
      pending == [] || MayBecomeIsolate(pending)
    }

    constructor ()
      ensures Valid() && pending == []
    {
      pending := [];
    }

    method Reset()
      modifies this
      ensures Valid() && pending == []
    {
      pending := [];
    }

    /** Copies the input through a read and a write cursor, skipping complete isolates. */
    method Filter(data: seq<byte>) returns (filtered: seq<byte>)
      requires Valid()
      modifies this
      ensures Valid() && |pending| <= 2
      ensures Filtered(filtered, pending) == FilterOf(old(pending) + data)
    {
      hide FilterOf, After;
      if data == [] {
        assert pending + data == pending;
        StaysPending(pending);
        return data;
      }
      var input := pending + data;
      pending := [];
      var output := new byte[|input|];
      var read, written := 0, 0;
      ghost var done: seq<byte> := [];
      AfterAfter([], [], FilterOf(input));
      assert input[0..] == input;
      while read < |input|
        invariant 0 <= written <= read <= |input|
        invariant pending == [] && output[..written] == done
        invariant FilterOf(input) == After(done, FilterOf(input[read..]))
      {
        if input[read] == LEAD {
          if read + 1 == |input| { break; }
          if input[read + 1] == SECOND {
            if read + 2 == |input| { break; }
            var last := input[read + 2];
            if MIN_LAST <= last <= MAX_LAST {
              SkipsIsolate(input, read);
              read := read + 3;
              continue;
            }
          }
        }
        KeepsByte(input, read, done);
        output[written] := input[read];
        done := done + [input[read]];
        read, written := read + 1, written + 1;
      }
      AtEnd(input, read, done);
      if read < |input| {
        pending := input[read..];
      }
      filtered := output[..written];
    }
  }
}
