/** Which tools `ae-cli discover --tool ...` configures. */
module DiscoverTools {
  import opened Results
  import opened GoStrings

  datatype DiscoverError = Unsupported(raw: string) | DetectionFailed

  /** strings.Split(s, ","): always at least one piece. */
  function Split(s: string): (pieces: seq<string>)
    ensures |pieces| >= 1
  {
    if s == "" then [""]
    else if s[0] == ',' then [""] + Split(s[1..])
    else
      var rest := Split(s[1..]);
      [[s[0]] + rest[0]] + rest[1..]
  }

  /** The pieces of all the occurrences of the flag, in order. */
  function Flatten(occurrences: seq<string>): seq<string> {
    if occurrences == [] then [] else Split(occurrences[0]) + Flatten(occurrences[1..])
  }

  function Join(occurrences: seq<string>): string
    requires occurrences != []
  {
    if |occurrences| == 1 then occurrences[0] else occurrences[0] + "," + Join(occurrences[1..])
  }

  /** The trimmed pieces. */
  function Names(raws: seq<string>): (names: seq<string>)
    ensures |names| == |raws|
    ensures forall i :: 0 <= i < |raws| ==> names[i] == TrimSpace(raws[i])
  {
    seq(|raws|, i requires 0 <= i < |raws| => TrimSpace(raws[i]))
  }

  // The pieces of a string hold no comma, and joined by commas they are the string again.
  lemma {:induction false} SplitMeaning(s: string)
    ensures forall piece :: piece in Split(s) ==> ',' !in piece
    ensures Join(Split(s)) == s
  {
    if s != "" {
      var rest := Split(s[1..]);
      SplitMeaning(s[1..]);
      assert s == [s[0]] + s[1..];
      if s[0] == ',' {
        assert ([""] + rest)[1..] == rest;
        assert Join([""] + rest) == "" + "," + Join(rest);
      } else {
        var head := [s[0]] + rest[0];
        HeadJoins(s[0], rest);
        forall c | c in head
          ensures c != ','
        {
          assert c == s[0] || c in rest[0];
        }
      }
    }
  }

  lemma HeadJoins(c: char, rest: seq<string>)
    requires rest != []
    ensures Join([[c] + rest[0]] + rest[1..]) == [c] + Join(rest)
  {
    var grown := [[c] + rest[0]] + rest[1..];
    assert grown[1..] == rest[1..];
    if |rest| > 1 {
      Regrouped(c, rest[0], Join(rest[1..]));
    }
  }

  lemma Regrouped(c: char, first: string, rest: string)
    ensures ([c] + first) + "," + rest == [c] + (first + "," + rest)
  {
  }

  lemma {:induction false} FlattenSnoc(occurrences: seq<string>, i: nat)
    requires i < |occurrences|
    ensures Flatten(occurrences[..i + 1]) == Flatten(occurrences[..i]) + Split(occurrences[i])
  {
    var next := occurrences[..i + 1];
    if i == 0 {
      assert next == [occurrences[0]] && next[1..] == [];
    } else {
      FlattenSnoc(occurrences[1..], i - 1);
      assert next[1..] == occurrences[1..][..i];
      assert occurrences[..i][1..] == occurrences[1..][..i - 1];
    }
  }

  lemma {:induction false} FlattenPrefix(occurrences: seq<string>, i: nat)
    requires i <= |occurrences|
    ensures Flatten(occurrences[..i]) <= Flatten(occurrences)
    decreases |occurrences| - i
  {
    if i == |occurrences| {
      assert occurrences[..i] == occurrences;
    } else {
      FlattenSnoc(occurrences, i);
      FlattenPrefix(occurrences, i + 1);
    }
  }

  /** The first piece that no supported tool is named by, if any. */
  predicate FirstUnsupported(supported: set<string>, raws: seq<string>, raw: string) {
    exists i :: 0 <= i < |raws| && raws[i] == raw && TrimSpace(raw) !in supported &&
      forall j :: 0 <= j < i ==> TrimSpace(raws[j]) in supported
  }

  lemma PieceIsFirst(supported: set<string>, explicit: seq<string>, i: nat, done: seq<string>, j: nat)
    requires i < |explicit| && j < |Split(explicit[i])| && done == Flatten(explicit[..i]) + Split(explicit[i])[..j]
    requires forall raw :: raw in done ==> TrimSpace(raw) in supported
    requires TrimSpace(Split(explicit[i])[j]) !in supported
    ensures FirstUnsupported(supported, Flatten(explicit), Split(explicit[i])[j])
  {
    var all, raw := Flatten(explicit), Split(explicit[i])[j];
    FlattenSnoc(explicit, i);
    FlattenPrefix(explicit, i + 1);
    var part := Flatten(explicit[..i + 1]);
    assert part == Flatten(explicit[..i]) + Split(explicit[i]);
    assert part[|done|] == raw && all[|done|] == raw;
    forall k | 0 <= k < |done|
      ensures TrimSpace(all[k]) in supported
    {
      assert part[k] == done[k] && done[k] in done;
    }
  }

  /** Each name once, where it first occurs. */
  function FirstOccurrences(names: seq<string>): seq<string> {
    if names == [] then []
    else
      var init := FirstOccurrences(names[..|names| - 1]);
      var last := names[|names| - 1];
      if last in names[..|names| - 1] then init else init + [last]
  }

  function FirstIndex(names: seq<string>, name: string): (i: nat)
    requires name in names
    ensures i < |names| && names[i] == name && name !in names[..i]
  {
    if names[0] == name then 0
    else
      assert names == [names[0]] + names[1..];
      1 + FirstIndex(names[1..], name)
  }

  // What "the distinct names in first-occurrence order" means: the same names, none of
  // them twice, ordered by where each first occurs.
  lemma {:induction false} FirstOccurrencesMeaning(names: seq<string>)
    ensures forall n :: n in FirstOccurrences(names) <==> n in names
    ensures forall i, j :: 0 <= i < j < |FirstOccurrences(names)| ==>
              FirstOccurrences(names)[i] in names && FirstOccurrences(names)[j] in names &&
              FirstIndex(names, FirstOccurrences(names)[i]) < FirstIndex(names, FirstOccurrences(names)[j])
  {
    if names != [] {
      var init, last := names[..|names| - 1], names[|names| - 1];
      FirstOccurrencesMeaning(init);
      assert names == init + [last];
      forall n | n in init
        ensures FirstIndex(names, n) == FirstIndex(init, n)
      {
        FirstIndexUnique(names, n, FirstIndex(init, n));
      }
      if last !in init {
        FirstIndexUnique(names, last, |init|);
      }
    }
  }

  lemma FirstIndexUnique(names: seq<string>, name: string, i: nat)
    requires i < |names| && names[i] == name && name !in names[..i]
    ensures FirstIndex(names, name) == i
  {
    var k := FirstIndex(names, name);
    forall m | 0 <= m < i
      ensures names[m] != name
    {
      assert names[..i][m] == names[m];
    }
    forall m | 0 <= m < k
      ensures names[m] != name
    {
      assert names[..k][m] == names[m];
    }
  }

  /** The pieces handled so far are all supported, and `seen` and `tools` are their names. */
  ghost predicate Accepted(supported: set<string>, done: seq<string>, seen: set<string>, tools: seq<string>) {
    && (forall raw :: raw in done ==> TrimSpace(raw) in supported)
    && tools == FirstOccurrences(Names(done))
    && seen == set n | n in Names(done)
  }

  lemma AcceptOne(supported: set<string>, done: seq<string>, raw: string, seen: set<string>, tools: seq<string>)
    requires Accepted(supported, done, seen, tools) && TrimSpace(raw) in supported
    ensures TrimSpace(raw) in seen ==> Accepted(supported, done + [raw], seen, tools)
    ensures TrimSpace(raw) !in seen ==>
              Accepted(supported, done + [raw], seen + {TrimSpace(raw)}, tools + [TrimSpace(raw)])
  {
    var name := TrimSpace(raw);
    NamesSnoc(done, raw);
    OccurrencesSnoc(Names(done), name);
    assert forall n :: n in Names(done) + [name] <==> n in Names(done) || n == name;
  }

  lemma NamesSnoc(raws: seq<string>, raw: string)
    ensures Names(raws + [raw]) == Names(raws) + [TrimSpace(raw)]
  {
  }

  lemma OccurrencesSnoc(names: seq<string>, name: string)
    ensures FirstOccurrences(names + [name]) ==
            if name in names then FirstOccurrences(names) else FirstOccurrences(names) + [name]
  {
    assert (names + [name])[..|names|] == names;
  }

  lemma OneMore(before: seq<string>, raws: seq<string>, j: nat)
    requires j < |raws|
    ensures before + raws[..j + 1] == (before + raws[..j]) + [raws[j]]
  {
  }

  /**
    resolveDiscoverTools: `supported` are the default tool names, and `installed` is what tool
    detection answers when no tool is named.
   */
  method ResolveDiscoverTools(supported: set<string>, explicit: seq<string>, installed: Result<seq<string>, DiscoverError>)
    returns (r: Result<seq<string>, DiscoverError>)
    ensures explicit == [] ==> r == installed
    ensures explicit != [] ==>
              (r.Err? <==> exists raw :: raw in Flatten(explicit) && TrimSpace(raw) !in supported)
    ensures explicit != [] && r.Err? ==>
              r.error.Unsupported? && FirstUnsupported(supported, Flatten(explicit), r.error.raw)
    ensures explicit != [] && r.Ok? ==> r.value == FirstOccurrences(Names(Flatten(explicit)))
  {
    if explicit == [] {
      return installed;
    }
    var seen: set<string> := {};
    var tools: seq<string> := [];
    ghost var done: seq<string> := [];
    for i := 0 to |explicit|
      invariant done == Flatten(explicit[..i])
      invariant Accepted(supported, done, seen, tools)
    {
      var raws := Split(explicit[i]);
      ghost var before := done;
      for j := 0 to |raws|
        invariant done == before + raws[..j]
        invariant Accepted(supported, done, seen, tools)
      {
        var name := TrimSpace(raws[j]);
        if name !in supported {
          PieceIsFirst(supported, explicit, i, done, j);
          return Err(Unsupported(raws[j]));
        }
        AcceptOne(supported, done, raws[j], seen, tools);
        OneMore(before, raws, j);
        done := done + [raws[j]];
        if name !in seen {
          seen := seen + {name};
          tools := tools + [name];
        }
      }
      FlattenSnoc(explicit, i);
    }
    assert explicit[..|explicit|] == explicit;
    return Ok(tools);
  }

  // Naming tools by repeating the flag or by joining them with commas is the same.
  lemma {:induction false} RepeatedFlagsAreJoinedFlags(explicit: seq<string>)
    requires explicit != []
    ensures Flatten(explicit) == Flatten([Join(explicit)])
  {
    if |explicit| == 1 {
      assert explicit == [Join(explicit)];
    } else {
      RepeatedFlagsAreJoinedFlags(explicit[1..]);
      SplitAtComma(explicit[0], Join(explicit[1..]));
      assert explicit[0] + "," + Join(explicit[1..]) == explicit[0] + ("," + Join(explicit[1..]));
    }
  }

  lemma HeadGrows(c: char, first: seq<string>, second: seq<string>)
    requires |first| >= 1
    ensures [[c] + (first + second)[0]] + (first + second)[1..] == ([[c] + first[0]] + first[1..]) + second
  {
  }

  lemma {:induction false} SplitAtComma(a: string, b: string)
    ensures Split(a + ("," + b)) == Split(a) + Split(b)
  {
    var tail := "," + b;
    assert tail[0] == ',' && tail[1..] == b;
    if a == "" {
      assert a + tail == tail;
    } else {
      var s := a + tail;
      assert s[0] == a[0] && s[1..] == a[1..] + tail;
      SplitAtComma(a[1..], b);
      if a[0] != ',' {
        HeadGrows(a[0], Split(a[1..]), Split(b));
      }
    }
  }
}
