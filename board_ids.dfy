/** Board identifiers: the slug the join route derives from a board's display
    name, `boardName.toLowerCase().replace(/\s+/g, '-')`, over ASCII letters and
    the six ASCII whitespace characters. */
module BoardIds {

  /** The whitespace recognised here: space, tab, line feed, vertical tab,
      form feed and carriage return. */
  predicate IsSpace(c: char) {
    c == ' ' || c == '\t' || c == '\n' || c == '\U{B}' || c == '\U{C}' || c == '\r'
  }

  predicate IsUpper(c: char) {
    'A' <= c <= 'Z'
  }

  /** ASCII lower-casing; every other character is left as it is. */
  function Lower(c: char): (l: char)
    ensures !IsUpper(l)
    ensures IsSpace(l) <==> IsSpace(c)
    ensures !IsUpper(c) ==> l == c
  {
    if 'A' <= c <= 'Z' then (c as int - 'A' as int + 'a' as int) as char else c
  }

  function LowerAll(s: string): (r: string)
    ensures |r| == |s| && forall i :: 0 <= i < |s| ==> r[i] == Lower(s[i])
  {
    seq(|s|, i requires 0 <= i < |s| => Lower(s[i]))
  }

  predicate NoSpace(s: string) {
    forall i :: 0 <= i < |s| ==> !IsSpace(s[i])
  }

  predicate AllSpace(s: string) {
    forall i :: 0 <= i < |s| ==> IsSpace(s[i])
  }

  /** What a board id looks like: no whitespace, nothing left to lower-case. */
  predicate Normalized(id: string) {
    forall i :: 0 <= i < |id| ==> !IsSpace(id[i]) && !IsUpper(id[i])
  }

  /** The suffix of `s` after its leading whitespace run. */
  function DropSpaces(s: string): (r: string)
    ensures |r| <= |s|
    ensures r == [] || !IsSpace(r[0])
  {
    if s != [] && IsSpace(s[0]) then DropSpaces(s[1..]) else s
  }

  /** What DropSpaces removes is a whitespace prefix. */
  lemma {:induction false} DropSpacesSuffix(s: string)
    ensures DropSpaces(s) == s[|s| - |DropSpaces(s)|..]
    ensures AllSpace(s[..|s| - |DropSpaces(s)|])
  {
    if s != [] && IsSpace(s[0]) {
      DropSpacesSuffix(s[1..]);
    }
  }

  /** The board id of a display name: lower-cased, each maximal whitespace run
      replaced by a single '-'. */
  function BoardIdOf(name: string): (id: string)
    ensures Normalized(id)
    ensures |id| <= |name|
    decreases |name|
  {
    if name == [] then []
    else if IsSpace(name[0]) then "-" + BoardIdOf(DropSpaces(name[1..]))
    else [Lower(name[0])] + BoardIdOf(name[1..])
  }

  /** A normalized string is its own board id. */
  lemma {:induction false} NormalizedIsFixed(id: string)
    requires Normalized(id)
    ensures BoardIdOf(id) == id
  {
    if id != [] {
      assert Normalized(id[1..]);
      NormalizedIsFixed(id[1..]);
      assert [id[0]] + id[1..] == id;
    }
  }

  /** Deriving the id of an id changes nothing. */
  lemma BoardIdIdempotent(name: string)
    ensures BoardIdOf(BoardIdOf(name)) == BoardIdOf(name)
  {
    NormalizedIsFixed(BoardIdOf(name));
  }

  /** A word without whitespace keeps its length and is only lower-cased. */
  lemma {:induction false} WordIsLowered(w: string)
    requires NoSpace(w)
    ensures BoardIdOf(w) == LowerAll(w)
  {
    if w != [] {
      WordIsLowered(w[1..]);
      assert LowerAll(w) == [Lower(w[0])] + LowerAll(w[1..]);
    }
  }

  /** A non-empty whitespace run alone becomes a single '-'. */
  lemma SpaceRunIsDash(run: string)
    requires run != [] && AllSpace(run)
    ensures BoardIdOf(run) == "-"
  {
    DropAllSpaces(run[1..]);
  }

  lemma {:induction false} DropAllSpaces(s: string)
    requires AllSpace(s)
    ensures DropSpaces(s) == []
  {
    if s != [] {
      DropAllSpaces(s[1..]);
    }
  }

  lemma {:induction false} DropSpacesAppend(x: string, b: string)
    requires DropSpaces(x) != [] || b == [] || !IsSpace(b[0])
    ensures DropSpaces(x + b) == DropSpaces(x) + b
  {
    if x == [] {
    } else if IsSpace(x[0]) {
      assert (x + b)[1..] == x[1..] + b;
      DropSpacesAppend(x[1..], b);
    } else {
    }
  }

  lemma UnfoldWord(s: string)
    requires s != [] && !IsSpace(s[0])
    ensures BoardIdOf(s) == [Lower(s[0])] + BoardIdOf(s[1..])
  {
  }

  lemma UnfoldRun(s: string)
    requires s != [] && IsSpace(s[0])
    ensures BoardIdOf(s) == "-" + BoardIdOf(DropSpaces(s[1..]))
  {
  }

  /** Two pieces that do not split a whitespace run are slugged independently,
      so the id is computed run by run and word by word. */
  lemma {:induction false} BoardIdAppend(a: string, b: string)
    requires a == [] || b == [] || !IsSpace(a[|a| - 1]) || !IsSpace(b[0])
    ensures BoardIdOf(a + b) == BoardIdOf(a) + BoardIdOf(b)
    decreases |a|, 2
  {
    if a == [] {
      assert a + b == b;
    } else if b == [] {
      assert a + b == a;
    } else if IsSpace(a[0]) {
      AppendAfterRun(a, b);
    } else {
      AppendAfterWord(a, b);
    }
  }

  lemma {:induction false} AppendAfterRun(a: string, b: string)
    requires a != [] && b != [] && IsSpace(a[0])
    requires !IsSpace(a[|a| - 1]) || !IsSpace(b[0])
    ensures BoardIdOf(a + b) == BoardIdOf(a) + BoardIdOf(b)
    decreases |a|, 1
  {
    var ab := a + b;
    var rest := DropSpaces(a[1..]);
    assert ab[1..] == a[1..] + b;
    assert BoardIdOf(a) == "-" + BoardIdOf(rest) by { UnfoldRun(a); }
    assert BoardIdOf(ab) == "-" + BoardIdOf(DropSpaces(ab[1..])) by { UnfoldRun(ab); }
    if rest == [] {
      // all of a is one whitespace run, ended by b's first character
      assert !IsSpace(b[0]) by {
        DropSpacesSuffix(a[1..]);
        assert a[1..] == a[1..][..|a[1..]| - |rest|];
        if |a| > 1 { assert a[|a| - 1] == a[1..][|a| - 2]; }
      }
      assert DropSpaces(ab[1..]) == b by {
        DropSpacesAppend(a[1..], b);
        assert rest + b == b;
      }
    } else {
      assert rest[|rest| - 1] == a[|a| - 1] by {
        DropSpacesSuffix(a[1..]);
        assert rest == a[1..][|a[1..]| - |rest|..];
      }
      assert DropSpaces(ab[1..]) == rest + b by { DropSpacesAppend(a[1..], b); }
      BoardIdAppend(rest, b);
      Associative("-", BoardIdOf(rest), BoardIdOf(b));
    }
  }

  lemma {:induction false} AppendAfterWord(a: string, b: string)
    requires a != [] && b != [] && !IsSpace(a[0])
    requires !IsSpace(a[|a| - 1]) || !IsSpace(b[0])
    ensures BoardIdOf(a + b) == BoardIdOf(a) + BoardIdOf(b)
    decreases |a|, 1
  {
    var ab, tail := a + b, a[1..];
    var head := [Lower(a[0])];
    assert BoardIdOf(a) == head + BoardIdOf(tail) by { UnfoldWord(a); }
    assert BoardIdOf(ab) == head + BoardIdOf(tail + b) by {
      assert ab[0] == a[0] && ab[1..] == tail + b;
      UnfoldWord(ab);
    }
    AppendTail(a, b);
    Associative(head, BoardIdOf(tail), BoardIdOf(b));
  }

  lemma {:induction false} AppendTail(a: string, b: string)
    requires a != [] && (!IsSpace(a[|a| - 1]) || b == [] || !IsSpace(b[0]))
    ensures BoardIdOf(a[1..] + b) == BoardIdOf(a[1..]) + BoardIdOf(b)
    decreases |a|, 0
  {
    var tail := a[1..];
    if tail == [] {
      assert tail + b == b;
    } else {
      assert tail[|tail| - 1] == a[|a| - 1];
      BoardIdAppend(tail, b);
    }
  }

  lemma Associative(x: string, y: string, z: string)
    ensures x + (y + z) == (x + y) + z
  {
  }

  /** Lower-casing the name first does not change its board id. */
  lemma {:induction false} CaseInsensitive(name: string)
    ensures BoardIdOf(LowerAll(name)) == BoardIdOf(name)
    decreases |name|
  {
    if name != [] {
      var l := LowerAll(name);
      assert l[1..] == LowerAll(name[1..]);
      if IsSpace(name[0]) {
        DropSpacesLower(name[1..]);
        CaseInsensitive(DropSpaces(name[1..]));
      } else {
        CaseInsensitive(name[1..]);
      }
    }
  }

  lemma {:induction false} DropSpacesLower(s: string)
    ensures DropSpaces(LowerAll(s)) == LowerAll(DropSpaces(s))
  {
    if s != [] {
      assert LowerAll(s)[1..] == LowerAll(s[1..]);
      DropSpacesLower(s[1..]);
    }
  }

  /** Two words joined by one space become the two ids joined by '-'. */
  lemma TwoWords(w1: string, w2: string)
    requires w1 != [] && !IsSpace(w1[|w1| - 1])
    requires w2 != [] && !IsSpace(w2[0])
    ensures BoardIdOf(w1 + " " + w2) == BoardIdOf(w1) + "-" + BoardIdOf(w2)
  {
    var gap := " ";
    BoardIdAppend(w1, gap);
    BoardIdAppend(w1 + gap, w2);
    SpaceRunIsDash(gap);
  }

  /** A word of letters whose first is the only capital is slugged by
      lower-casing that letter. */
  lemma CapitalisedWord(w: string, id: string)
    requires w != [] && |id| == |w| && 'A' <= w[0] <= 'Z' && id[0] == Lower(w[0])
    requires forall i :: 1 <= i < |w| ==> 'a' <= w[i] <= 'z' && id[i] == w[i]
    ensures BoardIdOf(w) == id
  {
    assert NoSpace(w);
    WordIsLowered(w);
  }

  lemma SprintWord(name: string)
    requires name == "Sprint Planning"
    ensures BoardIdOf(name[..6]) == "sprint"
  {
    CapitalisedWord(name[..6], "sprint");
  }

  lemma PlanningWord(name: string)
    requires name == "Sprint Planning"
    ensures BoardIdOf(name[7..]) == "planning"
  {
    CapitalisedWord(name[7..], "planning");
  }

  lemma SprintPlanningWords(name: string)
    requires name == "Sprint Planning"
    ensures BoardIdOf(name) == BoardIdOf(name[..6]) + "-" + BoardIdOf(name[7..])
  {
    var w1, w2 := name[..6], name[7..];
    assert name == w1 + " " + w2;
    TwoWords(w1, w2);
  }

  /** The example of the board-naming scheme: "Sprint Planning" is stored
      under "sprint-planning". */
  lemma SprintPlanning(name: string)
    requires name == "Sprint Planning"
    ensures BoardIdOf(name) == "sprint-planning"
  {
    SprintPlanningWords(name);
    SprintWord(name);
    PlanningWord(name);
  }
}
