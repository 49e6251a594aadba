// pkg/git/format.go: the commit a git ls-remote answer names.
module Format {
  import opened Types
  import opened Text

  // strings.Fields(s)[0] when there is a field: skip white space, then take
  // everything up to the next white space.
  function TakeField(s: string): string {
    if |s| == 0 || IsSpace(s[0]) then "" else [s[0]] + TakeField(s[1..])
  }

  // The first field of the first line, or an error when there is none.
  function FirstField(lines: seq<string>, errText: string): Result<string> {
    if |lines| == 0 then Err(errText)
    else if TrimLeft(lines[0]) == "" then Err(errText)
    else Ok(TakeField(TrimLeft(lines[0])))
  }

  // w is the first word of line: only white space before it, and it ends at
  // white space or at the end of the line.
  predicate FirstWordAt(line: string, pad: string, w: string, rest: string) {
    Blank(pad) && Word(w) && line == pad + w + rest && (rest == "" || IsSpace(rest[0]))
  }

  predicate Word(s: string) {
    |s| > 0 && forall i :: 0 <= i < |s| ==> !IsSpace(s[i])
  }

  lemma {:induction false} TrimLeftSplits(s: string)
    ensures exists pad :: Blank(pad) && s == pad + TrimLeft(s)
    ensures TrimLeft(s) == "" || !IsSpace(TrimLeft(s)[0])
  {
    if |s| > 0 && IsSpace(s[0]) {
      TrimLeftSplits(s[1..]);
      var pad :| Blank(pad) && s[1..] == pad + TrimLeft(s[1..]);
      assert Blank([s[0]] + pad);
      assert s == [s[0]] + pad + TrimLeft(s);
    } else {
      assert Blank("") && s == "" + s;
    }
  }

  lemma {:induction false} BlankIsTrimmedAway(s: string)
    ensures Blank(s) <==> TrimLeft(s) == ""
  {
    if |s| > 0 && IsSpace(s[0]) {
      BlankIsTrimmedAway(s[1..]);
      assert forall i :: 0 < i < |s| ==> s[i] == s[1..][i - 1];
      assert forall i :: 0 <= i < |s| - 1 ==> s[1..][i] == s[i + 1];
    }
  }

  lemma {:induction false} TakeFieldSplits(s: string)
    ensures exists rest :: s == TakeField(s) + rest && (rest == "" || IsSpace(rest[0]))
    ensures forall i :: 0 <= i < |TakeField(s)| ==> !IsSpace(TakeField(s)[i])
    ensures |s| > 0 && !IsSpace(s[0]) ==> |TakeField(s)| > 0
  {
    if |s| == 0 || IsSpace(s[0]) {
      assert s == TakeField(s) + s;
    } else {
      TakeFieldSplits(s[1..]);
      var rest :| s[1..] == TakeField(s[1..]) + rest && (rest == "" || IsSpace(rest[0]));
      assert TakeField(s) == [s[0]] + TakeField(s[1..]);
      assert s == TakeField(s) + rest;
    }
  }

  // An answer is an error exactly when the first line has no word; otherwise it
  // is the first word of that line, whole, and so never empty.
  lemma FirstFieldIsFirstWord(lines: seq<string>, errText: string)
    ensures FirstField(lines, errText).Err? <==> (|lines| == 0 || Blank(lines[0]))
    ensures FirstField(lines, errText).Ok? ==>
      exists pad, rest :: FirstWordAt(lines[0], pad, FirstField(lines, errText).value, rest)
  {
    if |lines| > 0 {
      BlankIsTrimmedAway(lines[0]);
      if TrimLeft(lines[0]) != "" { FirstWordTaken(lines[0]); }
    }
  }

  lemma FirstWordTaken(line: string)
    requires TrimLeft(line) != ""
    ensures exists pad, rest :: FirstWordAt(line, pad, TakeField(TrimLeft(line)), rest)
  {
    TrimLeftSplits(line);
    TakeFieldSplits(TrimLeft(line));
    var pad :| Blank(pad) && line == pad + TrimLeft(line);
    var w := TakeField(TrimLeft(line));
    var rest :| TrimLeft(line) == w + rest && (rest == "" || IsSpace(rest[0]));
    assert FirstWordAt(line, pad, w, rest);
  }

  lemma {:induction false} TakesWord(s: string)
    requires forall i :: 0 <= i < |s| ==> !IsSpace(s[i])
    ensures TakeField(s) == s
  {
    if |s| > 0 {
      assert s == [s[0]] + s[1..];
      TakesWord(s[1..]);
    }
  }

  // A line that is one word names that word.
  lemma WordIsItself(w: string)
    requires Word(w)
    ensures forall errText :: FirstField([w], errText) == Ok(w)
  {
    TakesWord(w);
    assert TrimLeft(w) == w;
  }

  lemma {:induction false} TakesFirstWord(w: string, rest: string)
    requires forall i :: 0 <= i < |w| ==> !IsSpace(w[i])
    requires rest == "" || IsSpace(rest[0])
    ensures TakeField(w + rest) == w
  {
    if |w| == 0 {
      assert w + rest == rest;
    } else {
      assert (w + rest)[1..] == w[1..] + rest && (w + rest)[0] == w[0];
      TakesFirstWord(w[1..], rest);
      assert w == [w[0]] + w[1..];
    }
  }

  // The first word of the first line is what is found, whatever else there is.
  lemma FirstWordFound(lines: seq<string>, pad: string, w: string, rest: string, errText: string)
    requires |lines| > 0 && FirstWordAt(lines[0], pad, w, rest)
    ensures FirstField(lines, errText) == Ok(w)
  {
    assert lines[0] == pad + (w + rest);
    TrimsBlank(pad, w + rest);
    TakesFirstWord(w, rest);
  }
}
