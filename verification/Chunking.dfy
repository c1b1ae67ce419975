/** Splitting a git diff into bounded chunks (review/chunking.py), and the re-splitting of a chunk the
    model's context rejected (`_split_context_limited_chunk` of review/native.py).  A chunk is its text;
    the path index of a chunk is not part of this model. */
module Chunking {
  import opened Wrappers

  const HEADER := "diff --git "

  function Concat(parts: seq<string>): string {
    if parts == [] then "" else parts[0] + Concat(parts[1..])
  }

  // ---- Sections ---------------------------------------------------------------------------

  /** The multi-line pattern `^diff --git ` matches at `i`. */
  predicate HeaderAt(diff: string, i: nat) {
    i < |diff| && (i == 0 || diff[i - 1] == '\n') && HEADER <= diff[i..]
  }

  /** A header is a line that begins with the words. */
  lemma HeadersBeginLines(before: string, after: string)
    ensures HeaderAt(before + after, |before|) <==>
      (before == "" || before[|before| - 1] == '\n') && |after| >= |HEADER| && after[..|HEADER|] == "diff --git "
  {
    var diff := before + after;
    assert diff[|before|..] == after;
    assert before != "" ==> diff[|before| - 1] == before[|before| - 1];
  }

  function HeaderStarts(diff: string, from: nat): (starts: seq<nat>)
    requires from <= |diff|
    ensures forall k :: 0 <= k < |starts| ==> from <= starts[k] < |diff| && HeaderAt(diff, starts[k])
    ensures forall j, k :: 0 <= j < k < |starts| ==> starts[j] < starts[k]
    ensures forall i :: from <= i < |diff| && HeaderAt(diff, i) ==> i in starts
    decreases |diff| - from
  {
    if from == |diff| then []
    else if HeaderAt(diff, from) then [from] + HeaderStarts(diff, from + 1)
    else HeaderStarts(diff, from + 1)
  }

  predicate Increasing(bounds: seq<nat>) {
    forall j, k :: 0 <= j < k < |bounds| ==> bounds[j] < bounds[k]
  }

  /** Where sections start: at every header, and at 0. */
  function Starts(diff: string): (starts: seq<nat>)
    requires diff != ""
    ensures starts != [] && starts[0] == 0 && Increasing(starts)
    ensures forall k :: 0 <= k < |starts| ==> starts[k] < |diff|
    ensures forall i :: 0 < i < |diff| ==> (i in starts <==> HeaderAt(diff, i))
  {
    var starts := HeaderStarts(diff, 0);
    if starts == [] || starts[0] != 0 then [0] + starts else starts
  }

  /** The stretches between consecutive bounds. */
  function Slices(diff: string, bounds: seq<nat>): (slices: seq<string>)
    requires Increasing(bounds) && forall k :: 0 <= k < |bounds| ==> bounds[k] <= |diff|
    ensures forall k :: 0 <= k < |slices| ==> slices[k] != ""
  {
    if |bounds| < 2 then [] else [diff[bounds[0]..bounds[1]]] + Slices(diff, bounds[1..])
  }

  function Sections(diff: string): (sections: seq<string>)
    requires diff != ""
    ensures forall k :: 0 <= k < |sections| ==> sections[k] != ""
  {
    Slices(diff, Starts(diff) + [|diff|])
  }

  lemma {:induction false} SlicesConcat(diff: string, bounds: seq<nat>)
    requires bounds != [] && Increasing(bounds) && forall k :: 0 <= k < |bounds| ==> bounds[k] <= |diff|
    ensures Concat(Slices(diff, bounds)) == diff[bounds[0]..bounds[|bounds| - 1]]
  {
    if |bounds| >= 2 {
      SlicesConcat(diff, bounds[1..]);
      assert diff[bounds[0]..bounds[1]] + diff[bounds[1]..bounds[|bounds| - 1]]
          == diff[bounds[0]..bounds[|bounds| - 1]];
    }
  }

  lemma SectionsConcat(diff: string)
    requires diff != ""
    ensures Concat(Sections(diff)) == diff
  {
    SlicesConcat(diff, Starts(diff) + [|diff|]);
  }

  lemma {:induction false} SliceAt(diff: string, bounds: seq<nat>, k: nat)
    requires Increasing(bounds) && k + 1 < |bounds| && forall j :: 0 <= j < |bounds| ==> bounds[j] <= |diff|
    ensures var slices := Slices(diff, bounds);
            && |slices| == |bounds| - 1 && slices[k] == diff[bounds[k]..bounds[k + 1]]
            && |Concat(slices[..k])| == bounds[k] - bounds[0]
    decreases |bounds|
  {
    var slices, rest := Slices(diff, bounds), Slices(diff, bounds[1..]);
    if k == 0 {
      assert slices[..0] == [];
      if |bounds| > 2 { SliceAt(diff, bounds[1..], 0); }
    } else {
      SliceAt(diff, bounds[1..], k - 1);
      assert slices[..k] == [slices[0]] + rest[..k - 1];
      assert |Concat(slices[..k])| == |slices[0]| + |Concat(rest[..k - 1])|;
    }
  }

  /** A section is one file of the diff: it starts at a header, unless it is what precedes the first one, and there is
      no other header in it. */
  lemma SectionsAreFiles(diff: string, k: nat)
    requires diff != "" && k < |Sections(diff)|
    ensures var section, start := Sections(diff)[k], |Concat(Sections(diff)[..k])|;
            && start + |section| <= |diff| && section == diff[start..start + |section|]
            && (k > 0 ==> HeaderAt(diff, start))
            && (start + |section| == |diff| || HeaderAt(diff, start + |section|))
            && forall i :: start < i < start + |section| ==> !HeaderAt(diff, i)
  {
    hide HeaderAt, Starts, Slices;
    var starts := Starts(diff);
    var bounds := starts + [|diff|];
    SlicesCount(diff, bounds);
    SliceAt(diff, bounds, k);
    assert starts[k] in starts && (k + 1 < |starts| ==> bounds[k + 1] in starts);
    NothingBetween(starts, |diff|, k);
  }

  lemma {:induction false} SlicesCount(diff: string, bounds: seq<nat>)
    requires bounds != [] && Increasing(bounds) && forall j :: 0 <= j < |bounds| ==> bounds[j] <= |diff|
    ensures |Slices(diff, bounds)| == |bounds| - 1
    decreases |bounds|
  {
    if |bounds| >= 2 { SlicesCount(diff, bounds[1..]); }
  }

  lemma NothingBetween(starts: seq<nat>, end: nat, k: nat)
    requires Increasing(starts) && k < |starts|
    ensures forall i :: starts[k] < i < (starts + [end])[k + 1] ==> i !in starts
  {
    assert forall j :: 0 <= j < |starts| ==> starts[j] <= starts[k] || (starts + [end])[k + 1] <= starts[j];
  }

  // ---- Cutting an oversized section -------------------------------------------------------

  /** `text.rfind("\n", lo, hi)`. */
  function LastNewline(text: string, lo: nat, hi: nat): (i: int)
    requires hi <= |text|
    ensures i == -1 || (lo <= i < hi && text[i] == '\n')
    ensures forall j :: lo <= j < hi && i < j ==> text[j] != '\n'
    decreases hi
  {
    if hi <= lo then -1
    else if text[hi - 1] == '\n' then hi - 1
    else LastNewline(text, lo, hi - 1)
  }

  function PieceEnd(text: string, offset: nat, maxChars: nat): (end: nat)
    requires offset < |text| && maxChars >= 1
    ensures offset < end <= |text| && end <= offset + maxChars
    // all that is left, if it fits; otherwise up to the last newline in the second half of the window, or all of it
    ensures |text| <= offset + maxChars ==> end == |text|
    ensures end == |text| || end == offset + maxChars || (end > offset + maxChars / 2 && text[end - 1] == '\n')
    ensures offset + maxChars < |text| ==>
      forall j :: offset + maxChars / 2 <= j < offset + maxChars && text[j] == '\n' ==> j < end && text[end - 1] == '\n'
  {
    var end := if offset + maxChars < |text| then offset + maxChars else |text|;
    if end < |text| then
      var newline := LastNewline(text, offset + maxChars / 2, end);
      if newline > offset then newline + 1 else end
    else end
  }

  function SplitTextFrom(text: string, offset: nat, maxChars: nat): seq<string>
    requires offset <= |text| && maxChars >= 1
    decreases |text| - offset
  {
    if offset == |text| then []
    else
      var end := PieceEnd(text, offset, maxChars);
      [text[offset..end]] + SplitTextFrom(text, end, maxChars)
  }

  method SplitText(text: string, maxChars: nat) returns (parts: seq<string>)
    requires maxChars >= 1
    ensures parts == SplitTextFrom(text, 0, maxChars)
  {
    parts := [];
    var offset := 0;
    while offset < |text|
      invariant offset <= |text|
      invariant parts + SplitTextFrom(text, offset, maxChars) == SplitTextFrom(text, 0, maxChars)
    {
      var end := if offset + maxChars < |text| then offset + maxChars else |text|;
      if end < |text| {
        var newline := LastNewline(text, offset + maxChars / 2, end);
        if newline > offset { end := newline + 1; }
      }
      assert end == PieceEnd(text, offset, maxChars);
      parts := parts + [text[offset..end]];
      offset := end;
    }
  }

  lemma {:induction false} SplitTextParts(text: string, offset: nat, maxChars: nat)
    requires offset <= |text| && maxChars >= 1
    ensures var parts := SplitTextFrom(text, offset, maxChars);
            && Concat(parts) == text[offset..]
            && (forall k :: 0 <= k < |parts| ==> 0 < |parts[k]| <= maxChars)
    decreases |text| - offset
  {
    if offset < |text| {
      var end := PieceEnd(text, offset, maxChars);
      SplitTextParts(text, end, maxChars);
      assert text[offset..end] + text[end..] == text[offset..];
    }
  }

  /** `piece` is the text from `start` as far as it fits or, if more text follows, up to the last newline in the
      second half of what fits, or all that fits when there is none. */
  ghost predicate CutWell(text: string, start: nat, maxChars: nat, piece: string) {
    && start + |piece| <= |text| && piece == text[start..start + |piece|] && piece != ""
    && (|text| <= start + maxChars ==> start + |piece| == |text|)
    && (start + maxChars < |text| ==>
          && (|piece| == maxChars || (maxChars / 2 < |piece| < maxChars && piece[|piece| - 1] == '\n'))
          && forall j :: start + maxChars / 2 <= j < start + maxChars && text[j] == '\n' ==>
               j < start + |piece| && piece[|piece| - 1] == '\n')
  }

  /** Where the pieces are cut. */
  lemma {:induction false} CutsFollowNewlines(text: string, offset: nat, maxChars: nat, k: nat)
    requires offset <= |text| && maxChars >= 1 && k < |SplitTextFrom(text, offset, maxChars)|
    ensures var parts := SplitTextFrom(text, offset, maxChars);
            CutWell(text, offset + |Concat(parts[..k])|, maxChars, parts[k])
    decreases |text| - offset
  {
    var parts := SplitTextFrom(text, offset, maxChars);
    FirstPiece(text, offset, maxChars);
    hide CutWell, PieceEnd;
    if k > 0 {
      var end := PieceEnd(text, offset, maxChars);
      var rest := SplitTextFrom(text, end, maxChars);
      CutsFollowNewlines(text, end, maxChars, k - 1);
      assert parts[..k] == [parts[0]] + rest[..k - 1];
      assert |Concat(parts[..k])| == |parts[0]| + |Concat(rest[..k - 1])|;
    } else {
      assert parts[..0] == [];
    }
  }

  lemma FirstPiece(text: string, offset: nat, maxChars: nat)
    requires offset < |text| && maxChars >= 1
    ensures CutWell(text, offset, maxChars, text[offset..PieceEnd(text, offset, maxChars)])
  {
    var end := PieceEnd(text, offset, maxChars);
    assert text[offset..end][|text[offset..end]| - 1] == text[end - 1];
  }

  // ---- Packing sections -------------------------------------------------------------------

  function Flush(pending: string): seq<string> {
    if pending == "" then [] else [pending]
  }

  /** The section loop of `chunk_diff`, from the state where `pending` is collected. */
  function Pack(sections: seq<string>, pending: string, maxChars: nat): seq<string>
    requires maxChars >= 1
  {
    if sections == [] then Flush(pending)
    else
      var section := sections[0];
      if |section| > maxChars then
        Flush(pending) + SplitTextFrom(section, 0, maxChars) + Pack(sections[1..], "", maxChars)
      else if pending != "" && |pending| + |section| > maxChars then
        [pending] + Pack(sections[1..], section, maxChars)
      else Pack(sections[1..], pending + section, maxChars)
  }

  function Chunks(diff: string, maxChars: nat): seq<string>
    requires maxChars >= 1
  {
    if diff == "" then [""]
    else if |diff| <= maxChars then [diff]
    else Pack(Sections(diff), "", maxChars)
  }

  lemma HeaderlessDiff(diff: string, maxChars: nat)
    requires maxChars >= 1 && |diff| > maxChars && HeaderStarts(diff, 0) == []
    ensures Chunks(diff, maxChars) == SplitTextFrom(diff, 0, maxChars)
  {
    var bounds := Starts(diff) + [|diff|];
    assert bounds == [0, |diff|];
    assert Slices(diff, bounds[1..]) == [];
    assert Sections(diff) == [diff[0..|diff|]];
    assert diff[0..|diff|] == diff;
    assert [diff][1..] == [];
    assert Pack([], "", maxChars) == [];
  }

  /** One section of the loop: what it emits, and what it leaves pending. */
  function Emitted(section: string, pending: string, maxChars: nat): seq<string>
    requires maxChars >= 1
  {
    if |section| > maxChars then Flush(pending) + SplitTextFrom(section, 0, maxChars)
    else if pending != "" && |pending| + |section| > maxChars then [pending]
    else []
  }

  function Kept(section: string, pending: string, maxChars: nat): string {
    if |section| > maxChars then ""
    else if pending != "" && |pending| + |section| > maxChars then section
    else pending + section
  }

  lemma PackStep(sections: seq<string>, i: nat, pending: string, maxChars: nat)
    requires maxChars >= 1 && i < |sections|
    ensures Pack(sections[i..], pending, maxChars)
         == Emitted(sections[i], pending, maxChars) + Pack(sections[i + 1..], Kept(sections[i], pending, maxChars), maxChars)
  {
    hide SplitTextFrom;
    assert sections[i..][0] == sections[i] && sections[i..][1..] == sections[i + 1..];
  }

  method ChunkDiff(diff: string, maxChars: nat) returns (chunks: seq<string>)
    requires maxChars >= 1
    ensures chunks == Chunks(diff, maxChars)
  {
    if diff == "" { return [""]; }
    if |diff| <= maxChars { return [diff]; }
    if HeaderStarts(diff, 0) == [] {
      chunks := SplitText(diff, maxChars);
      HeaderlessDiff(diff, maxChars);
      return;
    }
    var sections := Sections(diff);
    chunks := PackSections(sections, maxChars);
  }

  /** The same as the loop body does it: a flush, and then the section. */
  lemma StepFacts(section: string, pending: string, maxChars: nat, chunks: seq<string>, tail: seq<string>)
    requires maxChars >= 1
    ensures |section| > maxChars ==>
      && Kept(section, pending, maxChars) == ""
      && chunks + Flush(pending) + SplitTextFrom(section, 0, maxChars) == chunks + Emitted(section, pending, maxChars)
    ensures |section| <= maxChars && pending != "" && |pending| + |section| > maxChars ==>
      && Kept(section, pending, maxChars) == "" + section
      && chunks + Flush(pending) == chunks + Emitted(section, pending, maxChars)
    ensures |section| <= maxChars && !(pending != "" && |pending| + |section| > maxChars) ==>
      && Kept(section, pending, maxChars) == pending + section
      && chunks == chunks + Emitted(section, pending, maxChars)
    ensures chunks + Emitted(section, pending, maxChars) + tail == chunks + (Emitted(section, pending, maxChars) + tail)
  {
    hide SplitTextFrom;
    Reassociate(chunks, Emitted(section, pending, maxChars), tail);
  }

  lemma Reassociate(a: seq<string>, b: seq<string>, c: seq<string>)
    ensures a + b + c == a + (b + c)
  {
  }

  method PackSections(sections: seq<string>, maxChars: nat) returns (chunks: seq<string>)
    requires maxChars >= 1
    ensures chunks == Pack(sections, "", maxChars)
  {
    hide *;
    chunks := [];
    var pending := "";
    assert sections[0..] == sections;
    assert [] + Pack(sections, "", maxChars) == Pack(sections, "", maxChars);
    for i := 0 to |sections|
      invariant chunks + Pack(sections[i..], pending, maxChars) == Pack(sections, "", maxChars)
    {
      var section := sections[i];
      PackStep(sections, i, pending, maxChars);
      StepFacts(section, pending, maxChars, chunks, Pack(sections[i + 1..], Kept(section, pending, maxChars), maxChars));
      if |section| > maxChars {
        var parts := SplitText(section, maxChars);
        chunks := chunks + Flush(pending) + parts;
        pending := "";
      } else {
        if pending != "" && |pending| + |section| > maxChars {
          chunks := chunks + Flush(pending);
          pending := "";
        }
        pending := pending + section;
      }
    }
    PackNothing(pending, maxChars);
    assert sections[|sections|..] == [];
    chunks := chunks + Flush(pending);
  }

  lemma PackNothing(pending: string, maxChars: nat)
    requires maxChars >= 1
    ensures Pack([], pending, maxChars) == Flush(pending)
  {
  }

  lemma {:induction false} ConcatAppend(a: seq<string>, b: seq<string>)
    ensures Concat(a + b) == Concat(a) + Concat(b)
  {
    if a == [] {
      assert a + b == b;
    } else {
      ConcatAppend(a[1..], b);
      assert (a + b)[1..] == a[1..] + b;
      assert (a[0] + Concat(a[1..])) + Concat(b) == a[0] + (Concat(a[1..]) + Concat(b));
    }
  }

  predicate Within(chunks: seq<string>, maxChars: nat) {
    forall k :: 0 <= k < |chunks| ==> 0 < |chunks[k]| <= maxChars
  }

  lemma EmittedParts(section: string, pending: string, maxChars: nat)
    requires maxChars >= 1 && |pending| <= maxChars
    ensures Concat(Emitted(section, pending, maxChars)) + Kept(section, pending, maxChars) == pending + section
    ensures Within(Emitted(section, pending, maxChars), maxChars) && |Kept(section, pending, maxChars)| <= maxChars
  {
    if |section| > maxChars {
      hide SplitTextFrom;
      SplitTextParts(section, 0, maxChars);
      ConcatAppend(Flush(pending), SplitTextFrom(section, 0, maxChars));
      assert section[0..] == section && Concat(Flush(pending)) == pending;
    } else if pending != "" && |pending| + |section| > maxChars {
      assert Concat([pending]) == pending;
    }
  }

  lemma Regroup(pending: string, section: string, rest: string, emitted: string, kept: string)
    requires emitted + kept == pending + section
    ensures emitted + (kept + rest) == pending + (section + rest)
  {
    assert emitted + (kept + rest) == (emitted + kept) + rest;
  }

  lemma WithinAppend(a: seq<string>, b: seq<string>, maxChars: nat)
    requires Within(a, maxChars) && Within(b, maxChars)
    ensures Within(a + b, maxChars)
  {
  }

  lemma {:induction false} PackParts(sections: seq<string>, pending: string, maxChars: nat)
    requires maxChars >= 1 && |pending| <= maxChars
    ensures Concat(Pack(sections, pending, maxChars)) == pending + Concat(sections)
    ensures Within(Pack(sections, pending, maxChars), maxChars)
    decreases |sections|
  {
    if sections == [] {
      assert Concat(Flush(pending)) == pending;
    } else {
      hide Pack, Emitted, Kept, Within;
      var emitted, kept := Emitted(sections[0], pending, maxChars), Kept(sections[0], pending, maxChars);
      EmittedParts(sections[0], pending, maxChars);
      PackParts(sections[1..], kept, maxChars);
      PackStep(sections, 0, pending, maxChars);
      assert sections[0..] == sections;
      ConcatAppend(emitted, Pack(sections[1..], kept, maxChars));
      WithinAppend(emitted, Pack(sections[1..], kept, maxChars), maxChars);
      Regroup(pending, sections[0], Concat(sections[1..]), Concat(emitted), kept);
    }
  }

  /** No byte is dropped or moved, and no chunk exceeds the limit. */
  lemma {:induction false} ChunksCoverDiff(diff: string, maxChars: nat)
    requires maxChars >= 1
    ensures var chunks := Chunks(diff, maxChars);
            && Concat(chunks) == diff
            && (diff == "" ==> chunks == [""])
            && (diff != "" ==> Within(chunks, maxChars))
  {
    if diff != "" && |diff| > maxChars {
      SectionsConcat(diff);
      PackParts(Sections(diff), "", maxChars);
    }
  }

  // ---- Sections that fit are kept whole ---------------------------------------------------

  /** `p` is the end of some prefix of `parts`. */
  predicate CutAt(parts: seq<string>, p: nat) {
    exists k :: 0 <= k <= |parts| && |Concat(parts[..k])| == p
  }

  lemma {:induction false} CutAppend(a: seq<string>, b: seq<string>, p: nat)
    requires CutAt(a + b, p)
    ensures p <= |Concat(a)| || CutAt(b, p - |Concat(a)|)
  {
    var k :| 0 <= k <= |a + b| && |Concat((a + b)[..k])| == p;
    if k <= |a| {
      assert (a + b)[..k] == a[..k] && a == a[..k] + a[k..];
      ConcatAppend(a[..k], a[k..]);
    } else {
      assert (a + b)[..k] == a + b[..k - |a|];
      ConcatAppend(a, b[..k - |a|]);
    }
  }

  /** What is pending is never cut. */
  lemma {:induction false} CutBeyondPending(sections: seq<string>, pending: string, maxChars: nat, p: nat)
    requires maxChars >= 1 && |pending| <= maxChars && CutAt(Pack(sections, pending, maxChars), p)
    ensures p == 0 || |pending| <= p
    decreases |sections|
  {
    if sections == [] {
      assert Flush(pending) + [] == Flush(pending);
      FirstCut(pending, [], p);
    } else {
      hide CutAt, Concat, SplitTextFrom;
      var section, rest := sections[0], sections[1..];
      if |section| > maxChars {
        var tail := SplitTextFrom(section, 0, maxChars) + Pack(rest, "", maxChars);
        assert Pack(sections, pending, maxChars) == Flush(pending) + tail;
        FirstCut(pending, tail, p);
      } else if pending != "" && |pending| + |section| > maxChars {
        assert Flush(pending) == [pending];
        FirstCut(pending, Pack(rest, section, maxChars), p);
      } else {
        CutBeyondPending(rest, pending + section, maxChars, p);
      }
    }
  }

  lemma FirstCut(pending: string, tail: seq<string>, p: nat)
    requires CutAt(Flush(pending) + tail, p)
    ensures p == 0 || |pending| <= p
  {
    if pending != "" {
      var all := [pending] + tail;
      var k :| 0 <= k <= |all| && |Concat(all[..k])| == p;
      if k > 0 { assert all[..k] == [pending] + tail[..k - 1]; }
    }
  }

  /** A chunk boundary never falls strictly inside a section that fits: `s` of the remaining sections
      spans the characters after `pending` and the sections before it. */
  lemma {:induction false} PackKeepsSection(sections: seq<string>, pending: string, maxChars: nat, s: nat, p: nat)
    requires maxChars >= 1 && |pending| <= maxChars && s < |sections| && |sections[s]| <= maxChars
    requires CutAt(Pack(sections, pending, maxChars), p)
    ensures var start := |pending| + |Concat(sections[..s])|; p <= start || start + |sections[s]| <= p
    decreases |sections|
  {
    hide Pack, Emitted, CutAt;
    var section, rest := sections[0], sections[1..];
    var emitted, kept := Emitted(section, pending, maxChars), Kept(section, pending, maxChars);
    EmittedParts(section, pending, maxChars);
    PackStep(sections, 0, pending, maxChars);
    assert sections[0..] == sections;
    CutAppend(emitted, Pack(rest, kept, maxChars), p);
    if s == 0 {
      if p > |Concat(emitted)| { CutBeyondPending(rest, kept, maxChars, p - |Concat(emitted)|); }
    } else {
      assert sections[..s] == [section] + rest[..s - 1];
      ConcatAppend([section], rest[..s - 1]);
      assert Concat([section]) == section;
      if p > |Concat(emitted)| { PackKeepsSection(rest, kept, maxChars, s - 1, p - |Concat(emitted)|); }
      assert |Concat(emitted)| + |kept| == |pending| + |section|;
    }
  }

  /** A file section that fits into a chunk is never cut. */
  lemma FittingSectionsStayWhole(diff: string, maxChars: nat, s: nat, p: nat)
    requires maxChars >= 1 && diff != "" && s < |Sections(diff)| && |Sections(diff)[s]| <= maxChars
    requires CutAt(Chunks(diff, maxChars), p)
    ensures var start := |Concat(Sections(diff)[..s])|; p <= start || start + |Sections(diff)[s]| <= p
  {
    hide CutAt, Sections;
    var sections := Sections(diff);
    if |diff| <= maxChars {
      SectionsConcat(diff);
      assert sections == sections[..s] + ([sections[s]] + sections[s + 1..]);
      ConcatAppend(sections[..s], [sections[s]] + sections[s + 1..]);
      assert Flush(diff) + [] == [diff];
      FirstCut(diff, [], p);
    } else {
      hide Pack, Sections;
      PackKeepsSection(sections, "", maxChars, s, p);
    }
  }

  // ---- Fewest chunks ----------------------------------------------------------------------

  function Flatten(groups: seq<seq<string>>): seq<string> {
    if groups == [] then [] else groups[0] + Flatten(groups[1..])
  }

  /** A run that fits as a whole causes at most one flush. */
  lemma {:induction false} RunCost(run: seq<string>, tail: seq<string>, pending: string, maxChars: nat)
    returns (flushed: bool, last: string)
    requires maxChars >= 1 && |pending| <= maxChars && |Concat(run)| <= maxChars
    ensures flushed ==> pending != "" && last != "" && |last| <= |Concat(run)|
    ensures !flushed ==> last == pending + Concat(run) && |last| <= maxChars
    ensures |Pack(run + tail, pending, maxChars)| == (if flushed then 1 else 0) + |Pack(tail, last, maxChars)|
    decreases |run|
  {
    if run == [] {
      assert run + tail == tail;
      return false, pending;
    }
    if pending == "" {
      RunNeverFlushes(run, tail, pending, maxChars);
      return false, pending + Concat(run);
    }
    var section, rest := run[0], run[1..];
    assert (run + tail)[1..] == rest + tail;
    if |pending| + |section| > maxChars {
      RunNeverFlushes(rest, tail, section, maxChars);
      assert |section| > 0 && |section + Concat(rest)| > 0;
      return true, section + Concat(rest);
    }
    flushed, last := RunCost(rest, tail, pending + section, maxChars);
    assert pending + section + Concat(rest) == pending + Concat(run);
  }

  lemma {:induction false} RunNeverFlushes(run: seq<string>, tail: seq<string>, pending: string, maxChars: nat)
    requires maxChars >= 1 && |pending| + |Concat(run)| <= maxChars
    ensures Pack(run + tail, pending, maxChars) == Pack(tail, pending + Concat(run), maxChars)
    decreases |run|
  {
    if run == [] {
      assert run + tail == tail && pending + Concat(run) == pending;
    } else {
      assert (run + tail)[1..] == run[1..] + tail;
      RunNeverFlushes(run[1..], tail, pending + run[0], maxChars);
      assert pending + run[0] + Concat(run[1..]) == pending + Concat(run);
    }
  }

  lemma {:induction false} PackIsFrugal(groups: seq<seq<string>>, pending: string, maxChars: nat)
    requires maxChars >= 1 && |pending| <= maxChars
    requires forall g :: 0 <= g < |groups| ==> |Concat(groups[g])| <= maxChars
    ensures |Pack(Flatten(groups), pending, maxChars)| <= |groups| + if pending == "" then 0 else 1
    decreases |groups|
  {
    if groups != [] {
      var flushed, last := RunCost(groups[0], Flatten(groups[1..]), pending, maxChars);
      PackIsFrugal(groups[1..], last, maxChars);
    }
  }

  /** When every section fits, no grouping of the sections into contiguous runs within the limit uses
      fewer chunks. */
  lemma FewestChunks(diff: string, maxChars: nat, groups: seq<seq<string>>)
    requires maxChars >= 1 && diff != ""
    requires Flatten(groups) == Sections(diff)
    requires forall g :: 0 <= g < |groups| ==> |Concat(groups[g])| <= maxChars
    ensures |Chunks(diff, maxChars)| <= |groups|
  {
    if |diff| > maxChars {
      PackIsFrugal(groups, "", maxChars);
    } else {
      assert |Sections(diff)| >= 1;
      assert groups != [];
    }
  }

  // ---- Splitting a rejected chunk ---------------------------------------------------------

  const MIN_SPLIT := 4000

  /** None is the PermanentError of a chunk that cannot be reduced. */
  function SplitChunk(text: string): Option<seq<string>> {
    if |text| <= MIN_SPLIT then None
    else
      var sixty := |text| * 3 / 5;
      var target := if sixty < MIN_SPLIT then MIN_SPLIT else sixty;
      var pieces := Chunks(text, target);
      if |pieces| < 2 then None else Some(pieces)
  }

  lemma ConcatAtMost(pieces: seq<string>, limit: nat)
    requires |Concat(pieces)| > limit && Within(pieces, limit)
    ensures |pieces| >= 2
  {
    assert pieces != [];
    assert Concat(pieces[1..]) == "" || pieces[1..] != [];
  }

  /** Cutting at any limit below the length loses nothing and yields at least two non-empty, strictly
      smaller pieces. */
  lemma {:induction false} AnyCutShrinks(text: string, target: nat)
    requires 1 <= target < |text|
    ensures var pieces := Chunks(text, target);
            && |pieces| >= 2 && Concat(pieces) == text
            && forall k :: 0 <= k < |pieces| ==> 0 < |pieces[k]| < |text|
  {
    ChunksCoverDiff(text, target);
    ConcatAtMost(Chunks(text, target), target);
  }

  /** A split succeeds exactly above the minimum size, and then it loses nothing and yields at least
      two non-empty, strictly smaller pieces, the chunks within three fifths of the length or the minimum. */
  lemma SplitChunkShrinks(text: string)
    ensures SplitChunk(text).Some? <==> |text| > MIN_SPLIT
    ensures SplitChunk(text).Some? ==>
      var pieces := SplitChunk(text).value;
      && |pieces| >= 2 && Concat(pieces) == text
      && (forall k :: 0 <= k < |pieces| ==> 0 < |pieces[k]| < |text|)
      && exists target: nat :: target >= 1 && pieces == Chunks(text, target)
           && (if 3 * |text| < 5 * MIN_SPLIT then target == MIN_SPLIT else 5 * target <= 3 * |text| < 5 * target + 5)
           && forall k :: 0 <= k < |pieces| ==> |pieces[k]| <= target
  {
    if |text| > MIN_SPLIT {
      var sixty := |text| * 3 / 5;
      var target: nat := if sixty < MIN_SPLIT then MIN_SPLIT else sixty;
      AnyCutShrinks(text, target);
      ChunksCoverDiff(text, target);
      assert SplitChunk(text) == Some(Chunks(text, target));
    }
  }
}
