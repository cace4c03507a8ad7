/** Whitespace trimming and dot-separated keypaths. */
module Keypaths {
  import opened Values

  /** `unicode.IsSpace`. */
  predicate IsSpace(c: char) {
    || c in "\t\n\r "
    || c as int in {0x0b, 0x0c, 0x85, 0xa0, 0x1680, 0x2028, 0x2029, 0x202f, 0x205f, 0x3000}
    || 0x2000 <= c as int <= 0x200a
  }

  /** `strings.TrimSpace`. */
  function Trim(s: string): string {
    if s == "" then ""
    else if IsSpace(s[0]) then Trim(s[1..])
    else if IsSpace(s[|s| - 1]) then Trim(s[..|s| - 1])
    else s
  }

  lemma {:induction false} TrimFixpoint(s: string)
    ensures Trim(s) == s <==> s == "" || (!IsSpace(s[0]) && !IsSpace(s[|s| - 1]))
    ensures |Trim(s)| <= |s|
    ensures Trim(Trim(s)) == Trim(s)
  {
    if s != "" {
      if IsSpace(s[0]) {
        TrimFixpoint(s[1..]);
      } else if IsSpace(s[|s| - 1]) {
        TrimFixpoint(s[..|s| - 1]);
      }
    }
  }

  ghost predicate AllSpace(s: string) {
    forall i :: 0 <= i < |s| ==> IsSpace(s[i])
  }

  /** Neither starts nor ends with whitespace. */
  ghost predicate Tight(s: string) {
    s == "" || (!IsSpace(s[0]) && !IsSpace(s[|s| - 1]))
  }

  lemma {:induction false} TrimOfSpace(s: string)
    requires AllSpace(s)
    ensures Trim(s) == ""
  {
    if s != "" {
      TrimOfSpace(s[1..]);
    }
  }

  /** Trimming takes away exactly the whitespace around a text that has none at its ends. */
  lemma {:induction false} TrimOfPadded(before: string, s: string, after: string)
    requires AllSpace(before) && AllSpace(after) && Tight(s)
    ensures Trim(before + s + after) == s
    decreases |before| + |after|
  {
    var padded := before + s + after;
    if s == "" {
      TrimOfSpace(padded);
    } else if before != "" {
      TrimOfPadded(before[1..], s, after);
      assert padded[1..] == before[1..] + s + after;
    } else if after != "" {
      TrimOfPadded(before, s, after[..|after| - 1]);
      assert padded[..|padded| - 1] == before + s + after[..|after| - 1];
      assert padded[0] == s[0];
    } else {
      assert padded == s;
    }
  }

  /** Whatever is trimmed is whitespace. */
  lemma {:induction false} TrimLeavesPadding(s: string) returns (before: string, after: string)
    ensures s == before + Trim(s) + after
    ensures AllSpace(before) && AllSpace(after) && Tight(Trim(s))
  {
    hide IsSpace;
    before, after := "", "";
    if s != "" {
      if IsSpace(s[0]) {
        var padding;
        padding, after := TrimLeavesPadding(s[1..]);
        before := [s[0]] + padding;
        assert s == [s[0]] + s[1..];
        assert before + Trim(s) + after == [s[0]] + (padding + Trim(s) + after);
      } else if IsSpace(s[|s| - 1]) {
        var padding;
        before, padding := TrimLeavesPadding(s[..|s| - 1]);
        after := padding + [s[|s| - 1]];
        assert s == s[..|s| - 1] + [s[|s| - 1]];
        assert before + Trim(s) + after == (before + Trim(s) + padding) + [s[|s| - 1]];
      }
    }
  }

  /** `strings.Split(s, ".")`. */
  function Split(s: string): (parts: seq<string>)
    ensures parts != []
  {
    if s == "" then [""]
    else if s[0] == '.' then [""] + Split(s[1..])
    else var rest := Split(s[1..]); [[s[0]] + rest[0]] + rest[1..]
  }

  function Join(parts: seq<string>): string {
    if parts == [] then ""
    else if |parts| == 1 then parts[0]
    else parts[0] + "." + Join(parts[1..])
  }

  ghost predicate DotFree(parts: seq<string>) {
    forall i :: 0 <= i < |parts| ==> '.' !in parts[i]
  }

  /** Puts a character in front of the first part. */
  function Prepend(c: char, parts: seq<string>): seq<string>
    requires parts != []
  {
    if c == '.' then [""] + parts else [[c] + parts[0]] + parts[1..]
  }

  lemma SplitCons(c: char, s: string)
    ensures Split([c] + s) == Prepend(c, Split(s))
  {
    assert ([c] + s)[1..] == s;
  }

  lemma JoinOfPrepend(c: char, parts: seq<string>)
    requires parts != []
    ensures Join(Prepend(c, parts)) == [c] + Join(parts)
  {
    if c == '.' {
      assert Prepend(c, parts)[1..] == parts;
    } else if |parts| > 1 {
      assert Prepend(c, parts)[1..] == parts[1..];
      assert ([c] + parts[0]) + "." + Join(parts[1..]) == [c] + (parts[0] + "." + Join(parts[1..]));
    }
  }

  lemma DotFreePrepend(c: char, parts: seq<string>)
    requires parts != [] && DotFree(parts)
    ensures DotFree(Prepend(c, parts))
  {
  }

  lemma {:induction false} JoinOfSplit(s: string)
    ensures Join(Split(s)) == s
    ensures DotFree(Split(s))
  {
    hide Join, DotFree;
    if s == "" {
      JoinOfNothing();
    } else {
      var c, t := s[0], s[1..];
      assert s == [c] + t;
      JoinOfSplit(t);
      SplitCons(c, t);
      JoinOfPrepend(c, Split(t));
      DotFreePrepend(c, Split(t));
    }
  }

  lemma JoinOfNothing()
    ensures Join([""]) == "" && DotFree([""])
  {
  }

  lemma PrependOfConcat(c: char, xs: seq<string>, ys: seq<string>)
    requires xs != []
    ensures Prepend(c, xs + ys) == Prepend(c, xs) + ys
  {
    assert (xs + ys)[1..] == xs[1..] + ys;
  }

  lemma {:induction false} SplitOfConcat(p: string, q: string)
    ensures Split(p + "." + q) == Split(p) + Split(q)
  {
    if p == "" {
      assert p + "." + q == ['.'] + q;
      SplitCons('.', q);
    } else {
      var c, t := p[0], p[1..];
      assert p == [c] + t && p + "." + q == [c] + (t + "." + q);
      SplitOfConcat(t, q);
      SplitCons(c, t);
      SplitCons(c, t + "." + q);
      PrependOfConcat(c, Split(t), Split(q));
    }
  }

  lemma {:induction false} SplitOfDotFree(s: string)
    requires '.' !in s
    ensures Split(s) == [s]
  {
    if s != "" {
      SplitOfDotFree(s[1..]);
      assert s == [s[0]] + s[1..];
    }
  }

  lemma {:induction false} SplitOfJoin(parts: seq<string>)
    requires parts != [] && DotFree(parts)
    ensures Split(Join(parts)) == parts
  {
    SplitOfDotFree(parts[0]);
    if |parts| > 1 {
      SplitOfJoin(parts[1..]);
      SplitOfConcat(parts[0], Join(parts[1..]));
      assert parts == [parts[0]] + parts[1..];
    }
  }

  /** `NewKeypathFromString`: no part may be empty, except that the empty string has no parts. */
  function Parse(s: string): Outcome<seq<string>> {
    if s == "" then Ok([])
    else if "" in Split(s) then Err(WrongKeypath)
    else Ok(Split(s))
  }

  ghost predicate DoubleDotAt(s: string, i: int) {
    0 <= i < |s| - 1 && s[i] == '.' && s[i + 1] == '.'
  }

  /** A trailing dot or two dots in a row. */
  ghost predicate BadTail(s: string) {
    s != "" && (s[|s| - 1] == '.' || exists i :: DoubleDotAt(s, i))
  }

  ghost predicate Malformed(s: string) {
    s != "" && (s[0] == '.' || BadTail(s))
  }

  lemma BadTailStep(s: string)
    requires s != ""
    ensures BadTail(s) <==> BadTail(s[1..]) || (s[0] == '.' && (s[1..] == "" || s[1] == '.'))
  {
    var t := s[1..];
    if i :| DoubleDotAt(t, i) {
      assert DoubleDotAt(s, i + 1);
    }
    if i :| DoubleDotAt(s, i) && i > 0 {
      assert DoubleDotAt(t, i - 1);
    }
    if |s| > 1 && s[0] == '.' && s[1] == '.' {
      assert DoubleDotAt(s, 0);
    }
  }

  lemma {:induction false} EmptyPartMeansBadTail(s: string)
    ensures "" in Split(s)[1..] <==> BadTail(s)
    ensures Split(s)[0] == "" <==> s == "" || s[0] == '.'
  {
    if s != "" {
      var rest := Split(s[1..]);
      EmptyPartMeansBadTail(s[1..]);
      BadTailStep(s);
      if s[0] == '.' {
        assert Split(s)[1..] == rest == [rest[0]] + rest[1..];
      } else {
        assert Split(s)[1..] == rest[1..];
      }
    }
  }

  /** Accepted keypaths are exactly the well-formed strings; their parts are non-empty, dot-free and
      rejoin to the input, and every such list of parts comes from the string that joins it. */
  lemma ParseRoundTrips(s: string, parts: seq<string>)
    ensures Parse(s).Err? <==> Malformed(s)
    ensures Parse(s).Err? ==> Parse(s).error == WrongKeypath
    ensures Parse(s).Ok? ==>
      Join(Parse(s).value) == s && DotFree(Parse(s).value) && "" !in Parse(s).value
    ensures DotFree(parts) && "" !in parts ==> Parse(Join(parts)) == Ok(parts)
  {
    if s != "" {
      EmptyPartMeansBadTail(s);
      assert Split(s) == [Split(s)[0]] + Split(s)[1..];
      JoinOfSplit(s);
    }
    if parts != [] && DotFree(parts) && "" !in parts {
      SplitOfJoin(parts);
      assert parts[0] in parts;
      assert Join(parts) != "";
    }
  }

  /** The name that decides which variable a keypath reads, and which task the graph builder links. */
  function FirstSegment(s: string): string {
    Split(Trim(s))[0]
  }

  /** It is what comes before the first dot, without the whitespace around the keypath. */
  lemma FirstSegmentIs(before: string, name: string, rest: string, after: string)
    requires AllSpace(before) && AllSpace(after) && '.' !in name
    ensures Tight(name) ==> FirstSegment(before + name + after) == name
    ensures Tight(name + "." + rest) ==> FirstSegment(before + (name + "." + rest) + after) == name
  {
    SplitOfDotFree(name);
    if Tight(name) {
      TrimOfPadded(before, name, after);
    }
    if Tight(name + "." + rest) {
      TrimOfPadded(before, name + "." + rest, after);
      SplitOfConcat(name, rest);
    }
  }
}
