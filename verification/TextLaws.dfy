/** Laws that determine the text primitives of module Text, whatever their definitions. */
module TextLaws {
  import opened Text

  predicate Blank(s: string) {
    forall i | 0 <= i < |s| :: IsSpace(s[i])
  }

  // No white space at either end.
  predicate Tight(s: string) {
    s == "" || (!IsSpace(s[0]) && !IsSpace(s[|s| - 1]))
  }

  // The White_Space characters of Unicode.
  lemma SpaceCharacters(c: char)
    ensures IsSpace(c) <==>
              c in {'\t', '\n', '\U{0B}', '\U{0C}', '\r', ' ', '\U{85}', '\U{A0}', '\U{1680}', '\U{2000}', '\U{2001}',
                    '\U{2002}', '\U{2003}', '\U{2004}', '\U{2005}', '\U{2006}', '\U{2007}', '\U{2008}', '\U{2009}',
                    '\U{200A}', '\U{2028}', '\U{2029}', '\U{202F}', '\U{205F}', '\U{3000}'}
  {
  }

  // Trimming ----------------------------------------------------------------------------------

  lemma {:induction false} TrimLeftBlank(p: string, s: string)
    requires Blank(p) && (s == "" || !IsSpace(s[0]))
    ensures TrimLeft(p + s) == s
  {
    if p == "" {
      assert p + s == s;
    } else {
      assert (p + s)[0] == p[0] && (p + s)[1..] == p[1..] + s;
      TrimLeftBlank(p[1..], s);
    }
  }

  lemma {:induction false} TrimRightBlank(s: string, q: string)
    requires Blank(q) && (s == "" || !IsSpace(s[|s| - 1]))
    ensures TrimRight(s + q) == s
    decreases |q|
  {
    if q == "" {
      assert s + q == s;
    } else {
      assert (s + q)[..|s + q| - 1] == s + q[..|q| - 1];
      TrimRightBlank(s, q[..|q| - 1]);
    }
  }

  // Trimming takes off the white space at both ends, all of it, and nothing else.
  lemma TrimSpaceIs(p: string, s: string, q: string)
    requires Blank(p) && Tight(s) && Blank(q)
    ensures TrimSpace(p + s + q) == s
  {
    if s == "" {
      TrimLeftBlank(p + q, "");
      assert p + s + q == p + q + "";
    } else {
      assert p + s + q == p + (s + q);
      TrimLeftBlank(p, s + q);
      TrimRightBlank(s, q);
    }
  }

  // Every string has such parts.
  lemma {:induction false} Parts(s: string) returns (p: string, m: string, q: string)
    ensures s == p + m + q && Blank(p) && Tight(m) && Blank(q)
    decreases |s|
  {
    p, m, q := "", s, "";
    if s != "" && IsSpace(s[0]) {
      p, m, q := Parts(s[1..]);
      p := [s[0]] + p;
    } else if s != "" && IsSpace(s[|s| - 1]) {
      p, m, q := Parts(s[..|s| - 1]);
      q := q + [s[|s| - 1]];
    }
  }

  // Words -------------------------------------------------------------------------------------

  lemma {:induction false} WordLenCut(a: string, c: char, b: string)
    requires IsSpace(c)
    ensures WordLen(a + [c] + b) == WordLen(a)
  {
    var s := a + [c] + b;
    if a != "" {
      assert s[0] == a[0] && s[1..] == a[1..] + [c] + b;
      WordLenCut(a[1..], c, b);
    }
  }

  // White space separates words, whichever it is.
  lemma {:induction false} FieldsSplit(a: string, c: char, b: string)
    requires IsSpace(c)
    ensures Fields(a + [c] + b) == Fields(a) + Fields(b)
    decreases |a|
  {
    var s := a + [c] + b;
    if a == "" {
      assert s[0] == c && s[1..] == b;
    } else if IsSpace(a[0]) {
      assert s[0] == a[0] && s[1..] == a[1..] + [c] + b;
      FieldsSplit(a[1..], c, b);
    } else {
      var n := WordLen(a);
      WordLenCut(a, c, b);
      assert s[0] == a[0] && s[..n] == a[..n] && s[n..] == a[n..] + [c] + b;
      FieldsSplit(a[n..], c, b);
    }
  }

  // A word is one word, and blanks are none.
  lemma FieldsOfWord(w: string)
    requires IsWord(w)
    ensures Fields(w) == [w]
  {
    FieldsOfWords(w, []);
    assert w + Spaced([]) == w;
  }

  lemma {:induction false} FieldsOfBlank(s: string)
    requires Blank(s)
    ensures Fields(s) == []
  {
    if s != "" {
      FieldsOfBlank(s[1..]);
    }
  }

  // So any run of white space separates words.
  lemma FieldsGap(a: string, gap: string, b: string)
    requires Blank(gap) && gap != ""
    ensures Fields(a + gap + b) == Fields(a) + Fields(b)
  {
    var rest := gap[1..];
    assert a + gap + b == a + [gap[0]] + (rest + b);
    FieldsSplit(a, gap[0], rest + b);
    FieldsAfterBlank(rest, b);
  }

  lemma {:induction false} FieldsAfterBlank(p: string, b: string)
    requires Blank(p)
    ensures Fields(p + b) == Fields(b)
  {
    if p == "" {
      assert p + b == b;
    } else {
      assert (p + b)[0] == p[0] && (p + b)[1..] == p[1..] + b;
      FieldsAfterBlank(p[1..], b);
    }
  }

  // Lines -------------------------------------------------------------------------------------

  // A line, with or without a carriage return before its newline, is the next token.
  lemma LinesFirst(l: string, rest: string)
    requires '\n' !in l
    ensures Lines(l + "\n" + rest) == [DropCR(l)] + Lines(rest)
    ensures l != "" ==> Lines(l) == [DropCR(l)]
    ensures Lines("") == []
    ensures DropCR(l + "\r") == l && (l == "" || l[|l| - 1] != '\r' ==> DropCR(l) == l)
  {
    var s := l + "\n" + rest;
    assert s[|l|] == '\n' && s[..|l|] == l && s[|l| + 1..] == rest;
    IndexAt(s, '\n', |l|);
    assert (l + "\r")[..|l|] == l;
  }

  // 65536 characters in a row without a newline.
  predicate Window(text: string, i: int) {
    0 <= i <= |text| - 65536 && '\n' !in text[i..i + 65536]
  }

  ghost predicate HasWindow(text: string) {
    exists i :: Window(text, i)
  }

  // The scanner refuses a text exactly when it has them somewhere.
  lemma {:induction false} TooLongIff(text: string)
    ensures TooLong(text) <==> HasWindow(text)
    decreases |text|
  {
    if text != "" {
      var n := Index(text, '\n');
      if n < 0 {
        OneLine(text);
      } else {
        TooLongIff(text[n + 1..]);
        FirstLineOr(text, n);
      }
    }
  }

  lemma OneLine(text: string)
    requires '\n' !in text
    ensures |text| >= 65536 <==> HasWindow(text)
  {
    if |text| >= 65536 {
      assert Window(text, 0);
    }
  }

  lemma FirstLineOr(text: string, n: nat)
    requires n < |text| && text[n] == '\n' && '\n' !in text[..n]
    ensures HasWindow(text) <==> n >= 65536 || HasWindow(text[n + 1..])
  {
    var rest := text[n + 1..];
    if n >= 65536 {
      assert text[0..65536] == text[..n][..65536];
      assert Window(text, 0);
    }
    if i :| Window(rest, i) {
      assert text[n + 1 + i..n + 1 + i + 65536] == rest[i..i + 65536];
      assert Window(text, n + 1 + i);
    }
    if i :| Window(text, i) {
      if i > n {
        assert text[i..i + 65536] == rest[i - n - 1..i - n - 1 + 65536];
        assert Window(rest, i - n - 1);
      }
    }
  }
}
