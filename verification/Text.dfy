/**
 The Go text primitives that both ends of the inventory format are written with:
 unicode.IsSpace, strings.TrimSpace, strings.Fields, strings.Index and bufio.ScanLines.
 */
module Text {

  // unicode.IsSpace.
  predicate IsSpace(c: char) {
    || '\t' <= c <= '\r'
    || c == ' ' || c == '\U{85}' || c == '\U{A0}' || c == '\U{1680}'
    || '\U{2000}' <= c <= '\U{200A}'
    || c == '\U{2028}' || c == '\U{2029}' || c == '\U{202F}' || c == '\U{205F}' || c == '\U{3000}'
  }

  predicate SpaceFree(s: string) {
    forall i | 0 <= i < |s| :: !IsSpace(s[i])
  }

  predicate IsWord(s: string) {
    s != "" && SpaceFree(s)
  }

  predicate AllWords(ws: seq<string>) {
    forall i | 0 <= i < |ws| :: IsWord(ws[i])
  }

  lemma Assoc<T>(a: seq<T>, b: seq<T>, c: seq<T>)
    ensures a + b + c == a + (b + c)
  {
  }

  function TrimLeft(s: string): (r: string)
    ensures r != "" ==> !IsSpace(r[0])
    ensures s != "" && !IsSpace(s[0]) ==> r == s
  {
    if s != "" && IsSpace(s[0]) then TrimLeft(s[1..]) else s
  }

  function TrimRight(s: string): (r: string)
    ensures r != "" ==> !IsSpace(r[|r| - 1])
    ensures s != "" && !IsSpace(s[|s| - 1]) ==> r == s
    ensures s != "" && !IsSpace(s[0]) ==> r != "" && r[0] == s[0]
  {
    if s != "" && IsSpace(s[|s| - 1]) then TrimRight(s[..|s| - 1]) else s
  }

  // strings.TrimSpace.
  function TrimSpace(s: string): (r: string)
    ensures r != "" ==> !IsSpace(r[0]) && !IsSpace(r[|r| - 1])
    ensures s != "" && !IsSpace(s[0]) && !IsSpace(s[|s| - 1]) ==> r == s
  {
    TrimRight(TrimLeft(s))
  }

  lemma {:induction false} TrimLeftKeeps(s: string, c: char)
    requires c !in s
    ensures c !in TrimLeft(s)
  {
    if s != "" && IsSpace(s[0]) {
      assert s == [s[0]] + s[1..];
      TrimLeftKeeps(s[1..], c);
    }
  }

  lemma {:induction false} TrimRightKeeps(s: string, c: char)
    requires c !in s
    ensures c !in TrimRight(s)
  {
    if s != "" && IsSpace(s[|s| - 1]) {
      assert s == s[..|s| - 1] + [s[|s| - 1]];
      TrimRightKeeps(s[..|s| - 1], c);
    }
  }

  // Trimming brings in no characters.
  lemma TrimKeeps(s: string, c: char)
    requires c !in s
    ensures c !in TrimSpace(s)
  {
    TrimLeftKeeps(s, c);
    TrimRightKeeps(TrimLeft(s), c);
  }

  function WordLen(s: string): (n: nat)
    ensures n <= |s|
    ensures SpaceFree(s[..n])
    ensures n < |s| ==> IsSpace(s[n])
  {
    if s == "" || IsSpace(s[0]) then 0 else 1 + WordLen(s[1..])
  }

  // strings.Fields.
  function Fields(s: string): (ws: seq<string>)
    ensures AllWords(ws)
    ensures s != "" && !IsSpace(s[0]) ==> ws != [] && ws[0][0] == s[0]
    decreases |s|
  {
    if s == "" then []
    else if IsSpace(s[0]) then Fields(s[1..])
    else
      var n := WordLen(s);
      [s[..n]] + Fields(s[n..])
  }

  // strings.Index for a one-character needle.
  function Index(s: string, c: char): (r: int)
    ensures -1 <= r < |s|
    ensures 0 <= r ==> s[r] == c && c !in s[..r]
    ensures r == -1 <==> c !in s
  {
    if s == "" then -1
    else if s[0] == c then 0
    else
      var r := Index(s[1..], c);
      assert s == [s[0]] + s[1..];
      if r < 0 then -1 else assert s[..r + 1] == [s[0]] + s[1..][..r]; r + 1
  }

  function DropCR(s: string): (r: string)
    ensures s == "" || s[|s| - 1] != '\r' ==> r == s
  {
    if s != "" && s[|s| - 1] == '\r' then s[..|s| - 1] else s
  }

  // The tokens of a bufio.Scanner with its default split function.
  function Lines(text: string): (ls: seq<string>)
    ensures forall l | l in ls :: '\n' !in l
    decreases |text|
  {
    if text == "" then []
    else
      var i := Index(text, '\n');
      if i < 0 then [DropCR(text)]
      else [DropCR(text[..i])] + Lines(text[i + 1..])
  }

  // The longest token the scanner's buffer can hold, newline included.
  const MAX_TOKEN := 65536

  // The scanner stops with an error at a line that does not fit.
  predicate TooLong(text: string)
    decreases |text|
  {
    text != ""
    && var i := Index(text, '\n');
       if i < 0 then |text| >= MAX_TOKEN else i >= MAX_TOKEN || TooLong(text[i + 1..])
  }

  // Every line followed by a newline, as the printer writes them.
  function Unlines(ls: seq<string>): string {
    if ls == [] then "" else ls[0] + "\n" + Unlines(ls[1..])
  }

  // Every word preceded by one space.
  function Spaced(ws: seq<string>): string {
    if ws == [] then "" else " " + ws[0] + Spaced(ws[1..])
  }

  lemma IndexAt(s: string, c: char, k: nat)
    requires k < |s| && s[k] == c && c !in s[..k]
    ensures Index(s, c) == k
  {
  }

  predicate PlainLine(l: string) {
    '\n' !in l && (l == "" || l[|l| - 1] != '\r')
  }

  predicate AllPlain(ls: seq<string>) {
    forall l | l in ls :: PlainLine(l)
  }

  lemma LinesOfLine(l: string, rest: string)
    requires '\n' !in l
    ensures Lines(l + "\n" + rest) == [DropCR(l)] + Lines(rest)
  {
    var text := l + "\n" + rest;
    assert text[..|l|] == l && text[|l| + 1..] == rest;
    IndexAt(text, '\n', |l|);
  }

  // A text can be cut after any newline.
  lemma {:induction false} LinesConcat(a: string, b: string)
    requires a == "" || a[|a| - 1] == '\n'
    ensures Lines(a + b) == Lines(a) + Lines(b)
    decreases |a|
  {
    if a == "" {
      assert a + b == b;
    } else {
      var line, rest := CutLine(a);
      LinesConcat(rest, b);
      LinesConcatLine(line, rest, b);
    }
  }

  lemma LinesConcatLine(line: string, rest: string, b: string)
    requires '\n' !in line && Lines(rest + b) == Lines(rest) + Lines(b)
    ensures Lines(line + "\n" + rest + b) == Lines(line + "\n" + rest) + Lines(b)
  {
    Assoc(line + "\n", rest, b);
    LinesOfLine(line, rest);
    LinesOfLine(line, rest + b);
    Assoc([DropCR(line)], Lines(rest), Lines(b));
  }

  lemma CutLine(a: string) returns (line: string, rest: string)
    requires a != "" && a[|a| - 1] == '\n'
    ensures a == line + "\n" + rest && '\n' !in line
    ensures rest == "" || rest[|rest| - 1] == '\n'
  {
    var i := Index(a, '\n');
    assert a[|a| - 1] in a;
    line, rest := a[..i], a[i + 1..];
  }

  lemma {:induction false} LinesOfUnlines(ls: seq<string>)
    requires AllPlain(ls)
    ensures Lines(Unlines(ls)) == ls
  {
    if ls != [] {
      LinesOfUnlines(ls[1..]);
      assert PlainLine(ls[0]);
      LinesOfLine(ls[0], Unlines(ls[1..]));
    }
  }

  lemma {:induction false} UnlinesConcat(a: seq<string>, b: seq<string>)
    ensures Unlines(a + b) == Unlines(a) + Unlines(b)
  {
    if a == [] {
      assert a + b == b;
    } else {
      UnlinesConcat(a[1..], b);
      assert (a + b)[1..] == a[1..] + b;
      Assoc(a[0] + "\n", Unlines(a[1..]), Unlines(b));
    }
  }

  lemma UnlinesOne(l: string)
    ensures Unlines([l]) == l + "\n"
  {
    assert Unlines([l][1..]) == "";
  }

  lemma UnlinesSnoc(ls: seq<string>, l: string)
    ensures Unlines(ls + [l]) == Unlines(ls) + l + "\n"
  {
    UnlinesConcat(ls, [l]);
    UnlinesOne(l);
    assert Unlines(ls) + (l + "\n") == Unlines(ls) + l + "\n";
  }

  lemma UnlinesBlank(ls: seq<string>)
    ensures Unlines(ls + [""]) == Unlines(ls) + "\n"
  {
    UnlinesSnoc(ls, "");
    assert Unlines(ls) + "" == Unlines(ls);
  }

  lemma {:induction false} SpacedConcat(a: seq<string>, b: seq<string>)
    ensures Spaced(a + b) == Spaced(a) + Spaced(b)
  {
    if a == [] {
      assert a + b == b;
    } else {
      SpacedConcat(a[1..], b);
      assert (a + b)[1..] == a[1..] + b;
      Assoc(" " + a[0], Spaced(a[1..]), Spaced(b));
    }
  }

  lemma {:induction false} WordLenIs(w: string, rest: string)
    requires SpaceFree(w) && (rest == "" || IsSpace(rest[0]))
    ensures WordLen(w + rest) == |w|
  {
    if w == "" {
      assert w + rest == rest;
    } else {
      WordLenIs(w[1..], rest);
      assert (w + rest)[0] == w[0] && (w + rest)[1..] == w[1..] + rest;
    }
  }

  // Splitting undoes joining.
  lemma {:induction false} FieldsOfWords(w: string, ws: seq<string>)
    requires IsWord(w) && AllWords(ws)
    ensures Fields(w + Spaced(ws)) == [w] + ws
    decreases |ws|
  {
    var s := w + Spaced(ws);
    WordLenIs(w, Spaced(ws));
    assert s[..|w|] == w && s[|w|..] == Spaced(ws);
    assert s[0] == w[0];
    if ws != [] {
      assert Spaced(ws)[1..] == ws[0] + Spaced(ws[1..]);
      FieldsOfWords(ws[0], ws[1..]);
      assert ws == [ws[0]] + ws[1..];
    }
  }

  // A printed line of words has no blank ends and no line breaks.
  lemma {:induction false} WordsLine(w: string, ws: seq<string>)
    requires IsWord(w) && AllWords(ws)
    ensures PlainLine(w + Spaced(ws))
    ensures TrimSpace(w + Spaced(ws)) == w + Spaced(ws)
    decreases |ws|
  {
    var s := w + Spaced(ws);
    assert s[0] == w[0];
    if ws == [] {
      assert s == w;
    } else {
      WordsLine(ws[0], ws[1..]);
      var tail := ws[0] + Spaced(ws[1..]);
      assert s == w + " " + tail;
      assert s[|s| - 1] == tail[|tail| - 1];
      LastOfWords(ws[0], ws[1..]);
    }
  }

  lemma {:induction false} LastOfWords(w: string, ws: seq<string>)
    requires IsWord(w) && AllWords(ws)
    ensures !IsSpace((w + Spaced(ws))[|w + Spaced(ws)| - 1])
    decreases |ws|
  {
    if ws == [] {
      assert w + Spaced(ws) == w;
    } else {
      LastOfWords(ws[0], ws[1..]);
      assert w + Spaced(ws) == w + " " + (ws[0] + Spaced(ws[1..]));
    }
  }
}
