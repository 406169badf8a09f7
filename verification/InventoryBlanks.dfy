/**
 What a parse does not depend on: how wide the blanks of a line are, and the lines that are blank
 or comments.
 */
module InventoryBlanks {
  import opened Text
  import opened TextLaws
  import opened Inventory
  import opened InventoryStability

  // Two lines that no scan tells apart.
  ghost predicate SameLine(raw: string, raw': string) {
    forall st :: ScanLine(st, raw) == ScanLine(st, raw')
  }

  lemma SameTrimmed(raw: string, raw': string)
    requires TrimSpace(raw) == TrimSpace(raw')
    ensures SameLine(raw, raw')
  {
  }

  // White space at the ends of a line means nothing.
  lemma EndsDoNotMatter(p: string, raw: string, q: string)
    requires Blank(p) && Blank(q)
    ensures SameLine(p + raw + q, raw)
  {
    var a, m, b := Parts(raw);
    TrimSpaceIs(a, m, b);
    assert p + raw + q == (p + a) + m + (b + q);
    TrimSpaceIs(p + a, m, b + q);
  }

  // Between two words any gap means the same, except inside a section header, where it is part
  // of the name.
  lemma GapsDoNotMatter(a: string, gap: string, gap': string, b: string)
    requires Blank(gap) && gap != "" && Blank(gap') && gap' != ""
    requires !Header(a + gap + b)
    ensures SameLine(a + gap + b, a + gap' + b)
  {
    var p, m, q := Parts(a);
    var p', m', q' := Parts(b);
    if m == "" {
      GapAtStart(p + q, gap, gap', p', m', q');
      assert a == p + q && b == p' + m' + q';
    } else if m' == "" {
      GapAtEnd(p, m, q, gap, gap', p' + q');
      assert a == p + m + q && b == p' + q';
    } else {
      GapInside(p, m, q, gap, p', m', q');
      GapInside(p, m, q, gap', p', m', q');
      InnerGap(m, q + gap + p', q + gap' + p', m');
    }
  }

  lemma GapAtStart(p: string, gap: string, gap': string, p': string, m: string, q: string)
    requires Blank(p) && Blank(gap) && Blank(gap') && Blank(p') && Tight(m) && Blank(q)
    ensures SameLine(p + gap + (p' + m + q), p + gap' + (p' + m + q))
  {
    assert p + gap + (p' + m + q) == (p + gap + p') + m + q;
    assert p + gap' + (p' + m + q) == (p + gap' + p') + m + q;
    TrimSpaceIs(p + gap + p', m, q);
    TrimSpaceIs(p + gap' + p', m, q);
  }

  lemma GapAtEnd(p: string, m: string, q: string, gap: string, gap': string, q': string)
    requires Blank(p) && Tight(m) && Blank(q) && Blank(gap) && Blank(gap') && Blank(q')
    ensures SameLine(p + m + q + gap + q', p + m + q + gap' + q')
  {
    assert p + m + q + gap + q' == p + m + (q + gap + q');
    assert p + m + q + gap' + q' == p + m + (q + gap' + q');
    TrimSpaceIs(p, m, q + gap + q');
    TrimSpaceIs(p, m, q + gap' + q');
  }

  lemma GapInside(p: string, m: string, q: string, gap: string, p': string, m': string, q': string)
    requires Blank(p) && Tight(m) && m != "" && Blank(q) && Blank(gap)
    requires Blank(p') && Tight(m') && m' != "" && Blank(q')
    ensures TrimSpace(p + m + q + gap + (p' + m' + q')) == m + (q + gap + p') + m'
  {
    var inner := m + (q + gap + p') + m';
    assert p + m + q + gap + (p' + m' + q') == p + inner + q';
    assert inner[0] == m[0] && inner[|inner| - 1] == m'[|m'| - 1];
    TrimSpaceIs(p, inner, q');
  }

  // Two trimmed lines with different gaps.
  lemma InnerGap(m: string, gap: string, gap': string, m': string)
    requires m != "" && m' != "" && Blank(gap) && gap != "" && Blank(gap') && gap' != ""
    ensures var x, y := m + gap + m', m + gap' + m';
            && (Ignored(x) <==> Ignored(y)) && (LooksLikeHeader(x) <==> LooksLikeHeader(y))
            && Fields(x) == Fields(y)
  {
    FieldsGap(m, gap, m');
    FieldsGap(m, gap', m');
  }

  // Blank lines and comments ----------------------------------------------------------------

  // A line with nothing on it, or whose first character is # or ;, is as good as not there.
  lemma CommentsDoNotMatter(st: Scan, p: string, comment: string, q: string)
    requires Blank(p) && Blank(q) && Tight(comment)
    requires comment == "" || comment[0] == '#' || comment[0] == ';'
    ensures ScanLine(st, p + comment + q) == st
  {
    TrimSpaceIs(p, comment, q);
  }

  // Whole texts -------------------------------------------------------------------------------

  lemma ReplaceLine(before: seq<string>, raw: string, raw': string, after: seq<string>)
    requires SameLine(raw, raw')
    ensures ScanLines(START, before + [raw] + after) == ScanLines(START, before + [raw'] + after)
  {
    var st := ScanLines(START, before);
    ScanConcat(START, before, [raw]);
    ScanConcat(START, before, [raw']);
    ScanConcat(START, before + [raw], after);
    ScanConcat(START, before + [raw'], after);
    ScanOne(st, raw);
    ScanOne(st, raw');
  }

  // Making the blanks of one line wider or narrower, or using others, changes no parse.
  lemma BlanksDoNotMatter(before: seq<string>, p: string, a: string, gap: string, b: string, q: string,
                          p': string, gap': string, q': string, after: seq<string>)
    requires Blank(p) && Blank(p') && Blank(q) && Blank(q')
    requires Blank(gap) && gap != "" && Blank(gap') && gap' != "" && !Header(a + gap + b)
    requires AllPlain(before + [p + (a + gap + b) + q] + after) && AllPlain(before + [p' + (a + gap' + b) + q'] + after)
    ensures ParsedHosts(Unlines(before + [p + (a + gap + b) + q] + after))
         == ParsedHosts(Unlines(before + [p' + (a + gap' + b) + q'] + after))
  {
    var raw, raw' := a + gap + b, a + gap' + b;
    EndsDoNotMatter(p, raw, q);
    EndsDoNotMatter(p', raw', q');
    GapsDoNotMatter(a, gap, gap', b);
    ReplaceLine(before, p + raw + q, p' + raw' + q', after);
    LinesOfUnlines(before + [p + raw + q] + after);
    LinesOfUnlines(before + [p' + raw' + q'] + after);
  }
}
