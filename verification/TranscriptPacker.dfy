/** Packing session transcripts, in order, into as few files as the size limit allows. */
module TranscriptPacker {

  const MAX_CHARS_PER_FILE: nat := 100_000

  const SEPARATOR: string := "\n\n"

  /** The content of a file that holds the given transcripts. */
  function Joined(group: seq<string>): string {
    if group == [] then ""
    else if |group| == 1 then group[0]
    else Joined(group[..|group| - 1]) + SEPARATOR + group[|group| - 1]
  }

  /** A single transcript, or several that fit the limit together. */
  ghost predicate Allowed(group: seq<string>) {
    |group| == 1 || (|group| > 1 && |Joined(group)| <= MAX_CHARS_PER_FILE)
  }

  function Flatten(groups: seq<seq<string>>): seq<string> {
    if groups == [] then [] else groups[0] + Flatten(groups[1..])
  }

  /** An order-preserving split of the transcripts into allowed files. */
  ghost predicate Splits(groups: seq<seq<string>>, transcripts: seq<string>) {
    Flatten(groups) == transcripts && forall i :: 0 <= i < |groups| ==> Allowed(groups[i])
  }

  // ---- Sizes -------------------------------------------------------------------------

  function Size(group: seq<string>): nat {
    if group == [] then 0 else Size(group[..|group| - 1]) + |group[|group| - 1]| + 2
  }

  lemma {:induction false} JoinedSize(group: seq<string>)
    requires group != []
    ensures |Joined(group)| == Size(group) - 2
  {
    if |group| == 1 {
      assert group[..0] == [];
    } else {
      JoinedSize(group[..|group| - 1]);
    }
  }

  lemma {:induction false} SizeConcat(a: seq<string>, b: seq<string>)
    ensures Size(a + b) == Size(a) + Size(b)
  {
    if b == [] {
      assert a + b == a;
    } else {
      SizeConcat(a, b[..|b| - 1]);
      assert (a + b)[..|a + b| - 1] == a + b[..|b| - 1];
    }
  }

  /** A nonempty stretch of an allowed group is allowed. */
  lemma StretchIsAllowed(before: seq<string>, stretch: seq<string>, after: seq<string>)
    requires Allowed(before + stretch + after) && stretch != []
    ensures Allowed(stretch)
  {
    if |stretch| > 1 {
      SizeConcat(before + stretch, after);
      SizeConcat(before, stretch);
      JoinedSize(before + stretch + after);
      JoinedSize(stretch);
    }
  }

  // ---- The greedy split --------------------------------------------------------------

  /** The transcript does not fit into the file at hand any more. */
  predicate Overflows(current: seq<string>, t: string) {
    current != [] && |Joined(current)| + |t| + 2 > MAX_CHARS_PER_FILE
  }

  /** What the packing loop writes from here on, given the transcripts of the file at hand. */
  function Pack(current: seq<string>, rest: seq<string>): seq<seq<string>>
    decreases |rest|, |current|
  {
    if rest == [] then (if current == [] then [] else [current])
    else if Overflows(current, rest[0]) then [current] + Pack([], rest)
    else if |rest[0]| > MAX_CHARS_PER_FILE then [[rest[0]]] + Pack([], rest[1..])
    else Pack(current + [rest[0]], rest[1..])
  }

  /** The file at hand always fits the limit. */
  ghost predicate Fits(current: seq<string>) {
    current != [] ==> |Joined(current)| <= MAX_CHARS_PER_FILE
  }

  lemma FitsMore(current: seq<string>, t: string)
    requires Fits(current) && |t| <= MAX_CHARS_PER_FILE
    requires current != [] ==> |Joined(current)| + |t| + 2 <= MAX_CHARS_PER_FILE
    ensures Fits(current + [t])
  {
    if current == [] {
      assert current + [t] == [t];
    } else {
      assert (current + [t])[..|current|] == current;
    }
  }

  lemma PackEnds(current: seq<string>)
    ensures Pack(current, []) == if current == [] then [] else [current]
  {
  }

  lemma PackFlushes(current: seq<string>, rest: seq<string>)
    requires rest != [] && Overflows(current, rest[0])
    ensures Pack(current, rest) == [current] + Pack([], rest)
  {
    hide Overflows;
  }

  lemma PackLarge(rest: seq<string>)
    requires rest != [] && |rest[0]| > MAX_CHARS_PER_FILE
    ensures Pack([], rest) == [[rest[0]]] + Pack([], rest[1..])
  {
  }

  lemma PackAdds(current: seq<string>, rest: seq<string>)
    requires rest != [] && !Overflows(current, rest[0]) && |rest[0]| <= MAX_CHARS_PER_FILE
    ensures Pack(current, rest) == Pack(current + [rest[0]], rest[1..])
  {
    hide Overflows;
  }

  lemma NoFiles()
    ensures Splits([], [])
  {
  }

  lemma FileInFront(group: seq<string>, groups: seq<seq<string>>, transcripts: seq<string>)
    requires group != [] && Allowed(group) && Splits(groups, transcripts)
    ensures Splits([group] + groups, group + transcripts)
  {
    assert ([group] + groups)[1..] == groups;
  }

  /** The greedy files are an order-preserving split: every transcript once, in order, every file allowed. */
  lemma {:induction false} PackSplits(current: seq<string>, rest: seq<string>)
    requires Fits(current)
    ensures Splits(Pack(current, rest), current + rest)
    decreases |rest|, |current|
  {
    hide Joined, Splits, Pack;
    if rest == [] {
      NoFiles();
      PackEnds(current);
      if current != [] {
        FileInFront(current, [], []);
        assert [current] + [] == [current] && current + [] == current + rest == current;
      } else {
        assert current + rest == [];
      }
    } else if Overflows(current, rest[0]) {
      PackFlushes(current, rest);
      PackSplits([], rest);
      assert [] + rest == rest;
      FileInFront(current, Pack([], rest), rest);
    } else if |rest[0]| > MAX_CHARS_PER_FILE {
      assert current == [];
      PackLarge(rest);
      PackSplits([], rest[1..]);
      assert [] + rest[1..] == rest[1..];
      FileInFront([rest[0]], Pack([], rest[1..]), rest[1..]);
      assert current + rest == [rest[0]] + rest[1..];
    } else {
      PackAdds(current, rest);
      FitsMore(current, rest[0]);
      PackSplits(current + [rest[0]], rest[1..]);
      assert current + [rest[0]] + rest[1..] == current + rest;
    }
  }

  // ---- Optimality --------------------------------------------------------------------

  /** Removing a prefix of the transcripts never needs more files. */
  lemma {:induction false} DropPrefix(groups: seq<seq<string>>, transcripts: seq<string>, n: nat)
      returns (rest: seq<seq<string>>)
    requires Splits(groups, transcripts) && n <= |transcripts|
    ensures Splits(rest, transcripts[n..])
    ensures |rest| <= |groups|
    ensures groups != [] && n >= |groups[0]| ==> |rest| < |groups|
    decreases |groups|
  {
    if groups == [] {
      return groups;
    }
    var first, tail := groups[0], groups[1..];
    assert transcripts[|first|..] == Flatten(tail);
    if n >= |first| {
      rest := DropPrefix(tail, transcripts[|first|..], n - |first|);
      assert transcripts[|first|..][n - |first|..] == transcripts[n..];
    } else {
      rest := [first[n..]] + tail;
      assert first == first[..n] + first[n..] + [];
      StretchIsAllowed(first[..n], first[n..], []);
      assert rest[1..] == tail;
      assert first[n..] + Flatten(tail) == transcripts[n..];
    }
  }

  lemma Heads(groups: seq<seq<string>>, transcripts: seq<string>)
    requires Splits(groups, transcripts) && transcripts != []
    ensures groups != [] && Allowed(groups[0]) && groups[0] <= transcripts
  {
  }

  /** The number of greedy files is the minimum over all order-preserving splits into allowed files. */
  lemma {:induction false} PackIsOptimal(current: seq<string>, rest: seq<string>, groups: seq<seq<string>>)
    requires Fits(current) && Splits(groups, current + rest)
    ensures |Pack(current, rest)| <= |groups|
    decreases |rest|, |current|
  {
    if rest == [] {
      if current != [] { Heads(groups, current + rest); }
    } else {
      Heads(groups, current + rest);
      var t := rest[0];
      if current != [] && |Joined(current)| + |t| + 2 > MAX_CHARS_PER_FILE {
        FirstGroupEnds(current, rest, groups);
        var tail := DropPrefix(groups, current + rest, |current|);
        assert (current + rest)[|current|..] == rest == [] + rest;
        PackIsOptimal([], rest, tail);
      } else if |t| > MAX_CHARS_PER_FILE {
        assert current == [] && current + rest == rest;
        LargeIsAlone(rest, groups);
        var tail := DropPrefix(groups, rest, 1);
        assert [] + rest[1..] == rest[1..];
        PackIsOptimal([], rest[1..], tail);
      } else {
        FitsMore(current, t);
        assert current + [t] + rest[1..] == current + rest;
        PackIsOptimal(current + [t], rest[1..], groups);
      }
    }
  }

  /** No allowed first file holds the full file at hand and the next transcript as well. */
  lemma FirstGroupEnds(current: seq<string>, rest: seq<string>, groups: seq<seq<string>>)
    requires current != [] && rest != [] && |Joined(current)| + |rest[0]| + 2 > MAX_CHARS_PER_FILE
    requires Splits(groups, current + rest)
    ensures groups != [] && |groups[0]| <= |current|
  {
    Heads(groups, current + rest);
    var first := groups[0];
    if |first| > |current| {
      var both := current + [rest[0]];
      assert first[..|both|] == both;
      assert first == [] + both + first[|both|..];
      assert both[..|current|] == current;
      StretchIsAllowed([], both, first[|both|..]);
      assert false;
    }
  }

  lemma LargeIsAlone(rest: seq<string>, groups: seq<seq<string>>)
    requires rest != [] && |rest[0]| > MAX_CHARS_PER_FILE && Splits(groups, rest)
    ensures groups != [] && |groups[0]| == 1
  {
    Heads(groups, rest);
    var first := groups[0];
    if |first| > 1 {
      SizeConcat([first[0]], first[1..]);
      assert first == [first[0]] + first[1..];
      assert [first[0]][..0] == [];
      JoinedSize(first);
      assert false;
    }
  }

  // ---- The loop ----------------------------------------------------------------------

  datatype File = File(index: nat, content: string)

  lemma JoinedNone()
    ensures Joined([]) == ""
  {
  }

  lemma JoinedAdd(current: seq<string>, t: string)
    ensures Joined(current + [t]) == Joined(current) + (if current == [] then "" else SEPARATOR) + t
  {
    if current == [] {
      assert current + [t] == [t];
    } else {
      assert (current + [t])[..|current|] == current;
    }
  }

  /**
    The packing loop. Transcripts are never empty: each carries its session header. The flush in the branch
    for oversized transcripts is unreachable.
   */
  method PackTranscripts(transcripts: seq<string>) returns (outputFiles: seq<File>)
    requires forall i :: 0 <= i < |transcripts| ==> transcripts[i] != ""
    ensures |outputFiles| == |Pack([], transcripts)|
    ensures forall i :: 0 <= i < |outputFiles| ==> outputFiles[i] == File(i, Joined(Pack([], transcripts)[i]))
  {
    hide Joined, Pack;
    outputFiles := [];
    ghost var groups: seq<seq<string>> := [];
    var currentContent := "";
    ghost var current: seq<string> := [];
    var fileIndex := 0;
    JoinedNone();
    assert transcripts[0..] == transcripts;
    for i := 0 to |transcripts|
      invariant currentContent == Joined(current)
      invariant current != [] <==> |currentContent| > 0
      invariant Fits(current)
      invariant fileIndex == |outputFiles| == |groups|
      invariant forall k :: 0 <= k < |groups| ==> outputFiles[k] == File(k, Joined(groups[k]))
      invariant groups + Pack(current, transcripts[i..]) == Pack([], transcripts)
    {
      var transcript := transcripts[i];
      ghost var rest := transcripts[i..];
      assert rest[0] == transcript && rest[1..] == transcripts[i + 1..];
      if |currentContent| > 0 && |currentContent| + |transcript| + 2 > MAX_CHARS_PER_FILE {
        PackFlushes(current, rest);
        assert groups + ([current] + Pack([], rest)) == (groups + [current]) + Pack([], rest);
        outputFiles := outputFiles + [File(fileIndex, currentContent)];
        groups := groups + [current];
        currentContent, current := "", [];
        fileIndex := fileIndex + 1;
      }
      if |transcript| > MAX_CHARS_PER_FILE {
        if |currentContent| > 0 {
          assert false;
        }
        PackLarge(rest);
        JoinedAdd([], transcript);
        assert [] + [transcript] == [transcript];
        assert groups + ([[transcript]] + Pack([], rest[1..])) == (groups + [[transcript]]) + Pack([], rest[1..]);
        outputFiles := outputFiles + [File(fileIndex, transcript)];
        groups := groups + [[transcript]];
        fileIndex := fileIndex + 1;
        continue;
      }
      PackAdds(current, rest);
      FitsMore(current, transcript);
      JoinedAdd(current, transcript);
      currentContent := currentContent + (if |currentContent| > 0 then SEPARATOR else "") + transcript;
      current := current + [transcript];
    }
    assert transcripts[|transcripts|..] == [];
    PackEnds(current);
    if |currentContent| > 0 {
      outputFiles := outputFiles + [File(fileIndex, currentContent)];
      groups := groups + [current];
    }
    assert groups == Pack([], transcripts);
  }

  /** Packing keeps every transcript once and in order, in allowed files, and no such split has fewer. */
  lemma PackingIsCorrectAndMinimal(transcripts: seq<string>)
    ensures Splits(Pack([], transcripts), transcripts)
    ensures forall groups :: Splits(groups, transcripts) ==> |Pack([], transcripts)| <= |groups|
  {
    assert [] + transcripts == transcripts;
    PackSplits([], transcripts);
    forall groups | Splits(groups, transcripts) ensures |Pack([], transcripts)| <= |groups| {
      PackIsOptimal([], transcripts, groups);
    }
  }
}
