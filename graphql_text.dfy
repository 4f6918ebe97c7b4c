/**
 * The resource name the graphql integration gives a query span
 * (`_get_source_str` in ddtrace/contrib/graphql/patch.py): the query text
 * with every run of whitespace collapsed to one space and the ends stripped.
 */
module GraphqlText {
  import opened Sequences

  /**
   * Python's whitespace: the characters `str.isspace()` accepts, which are
   * also the ones `\s` matches in a `str` pattern and the ones `str.strip()`
   * removes.
   */
  predicate IsSpace(c: char) {
    var n := c as int;
    || (9 <= n <= 13) || (28 <= n <= 32) || n == 0x85 || n == 0xA0 || n == 0x1680
    || (0x2000 <= n <= 0x200A) || n == 0x2028 || n == 0x2029 || n == 0x202F || n == 0x205F || n == 0x3000
  }

  /**
   * Among ASCII characters, the whitespace is the space, tab, line feed,
   * vertical tab, form feed, carriage return and the four separators 0x1C to
   * 0x1F; no digit and no dot is whitespace.
   */
  lemma {:induction false} AsciiWhitespace(c: char)
    ensures c < '\U{80}' ==> (IsSpace(c) <==> c == ' ' || '\t' <= c <= '\r' || '\U{1C}' <= c <= '\U{1F}')
    ensures IsSpace(c) ==> c != '.' && !('0' <= c <= '9')
  {
  }

  /** `s` without its leading whitespace: a suffix of `s` that does not start with whitespace. */
  function TrimStart(s: string): (r: string)
    ensures |r| <= |s| && r == s[|s| - |r|..]
    ensures r == [] || !IsSpace(r[0])
    ensures s != [] && IsSpace(s[0]) ==> |r| < |s|
  {
    if s != [] && IsSpace(s[0]) then TrimStart(s[1..]) else s
  }

  /** `s` without its trailing whitespace: a prefix of `s` that does not end with whitespace. */
  function TrimEnd(s: string): (r: string)
    ensures |r| <= |s| && r == s[..|r|]
    ensures r == [] || !IsSpace(r[|r| - 1])
  {
    if s != [] && IsSpace(s[|s| - 1]) then TrimEnd(s[..|s| - 1]) else s
  }

  /** `s.strip()`: `s` with the whitespace cut from both ends. */
  function Strip(s: string): (r: string)
    ensures |r| <= |s|
    ensures r == [] || (!IsSpace(r[0]) && !IsSpace(r[|r| - 1]))
  {
    TrimEnd(TrimStart(s))
  }

  /** Stripping cuts only whitespace. */
  lemma {:induction false} StripKeepsNonSpace(s: string)
    ensures NonSpace(Strip(s)) == NonSpace(s)
  {
    NonSpaceOfTrimStart(s);
    NonSpaceOfTrimEnd(TrimStart(s));
  }

  /** Stripping a single-spaced string leaves it single-spaced. */
  lemma {:induction false} StripKeepsSingleSpaced(s: string)
    requires SingleSpaced(s)
    ensures SingleSpaced(Strip(s))
  {
    var t := TrimStart(s);
    SingleSpacedSlice(s, |s| - |t|, |s|);
    SingleSpacedSlice(t, 0, |TrimEnd(t)|);
  }

  /** The characters of `s` that are not whitespace, in order. */
  function NonSpace(s: string): string {
    if s == [] then [] else (if IsSpace(s[0]) then [] else [s[0]]) + NonSpace(s[1..])
  }

  /** Whitespace in `s` is only the plain space, and never two whitespace characters in a row. */
  predicate SingleSpaced(s: string) {
    && (forall i :: 0 <= i < |s| && IsSpace(s[i]) ==> s[i] == ' ')
    && (forall i :: 0 <= i < |s| - 1 && IsSpace(s[i]) ==> !IsSpace(s[i + 1]))
  }

  /** `re.sub(r"\s+", " ", s)`: every maximal run of whitespace becomes a single space. */
  function CollapseSpaces(s: string): (r: string)
    ensures r == [] <==> s == []
    ensures s != [] ==> (IsSpace(r[0]) <==> IsSpace(s[0]))
    decreases |s|
  {
    if s == [] then []
    else if IsSpace(s[0]) then " " + CollapseSpaces(TrimStart(s))
    else [s[0]] + CollapseSpaces(s[1..])
  }

  /** What `_get_source_str` is handed: a graphql `Source` object, or the query as a plain string. */
  datatype SourceArg = Source(body: string) | Text(text: string)

  /** The query text: a `Source`'s `body`, or the string itself. */
  function QueryText(source: SourceArg): (text: string)
    ensures source.Source? ==> text == source.body
    ensures source.Text? ==> text == source.text
  {
    match source
    case Source(body) => body
    case Text(text) => text
  }

  /**
   * `_get_source_str`: the query text with its whitespace runs collapsed and
   * its ends stripped. No whitespace at either end, only single plain spaces
   * inside, and the non-whitespace characters of the query kept in order.
   */
  function GetSourceStr(source: SourceArg): (r: string)
    ensures r == [] || (!IsSpace(r[0]) && !IsSpace(r[|r| - 1]))
    ensures SingleSpaced(r)
    ensures NonSpace(r) == NonSpace(QueryText(source))
  {
    var c := CollapseSpaces(QueryText(source));
    CollapseSingleSpaced(QueryText(source));
    CollapseKeepsNonSpace(QueryText(source));
    StripKeepsSingleSpaced(c);
    StripKeepsNonSpace(c);
    Strip(CollapseSpaces(QueryText(source)))
  }

  /** Normalising a resource again changes nothing. */
  lemma {:induction false} GetSourceStrIdempotent(source: SourceArg)
    ensures GetSourceStr(Text(GetSourceStr(source))) == GetSourceStr(source)
  {
    var r := GetSourceStr(source);
    CollapseFixesSingleSpaced(r);
    assert Strip(r) == r;
  }

  /** A `Source` object and its body as a plain string give the same resource. */
  lemma {:induction false} SourceAndTextAgree(body: string)
    ensures GetSourceStr(Source(body)) == GetSourceStr(Text(body))
  {
  }

  /** Collapsing leaves only single plain spaces. */
  lemma {:induction false} CollapseSingleSpaced(s: string)
    ensures SingleSpaced(CollapseSpaces(s))
    decreases |s|
  {
    if s != [] {
      var t := if IsSpace(s[0]) then TrimStart(s) else s[1..];
      var head := if IsSpace(s[0]) then ' ' else s[0];
      CollapseSingleSpaced(t);
      var rest := CollapseSpaces(t);
      assert CollapseSpaces(s) == [head] + rest;
      assert IsSpace(s[0]) && rest != [] ==> !IsSpace(rest[0]);
      ConsSingleSpaced(head, rest);
    }
  }

  /** Collapsing keeps the non-whitespace characters, in order. */
  lemma {:induction false} CollapseKeepsNonSpace(s: string)
    ensures NonSpace(CollapseSpaces(s)) == NonSpace(s)
    decreases |s|
  {
    if s != [] {
      if IsSpace(s[0]) {
        CollapseKeepsNonSpace(TrimStart(s));
        NonSpaceOfTrimStart(s);
        NonSpaceAppend(" ", CollapseSpaces(TrimStart(s)));
      } else {
        CollapseKeepsNonSpace(s[1..]);
        NonSpaceAppend([s[0]], CollapseSpaces(s[1..]));
      }
    }
  }

  /** The longest prefix of `s` without whitespace ends here. */
  function WordEnd(s: string): (n: nat)
    ensures n <= |s|
    ensures forall i :: 0 <= i < n ==> !IsSpace(s[i])
    ensures n < |s| ==> IsSpace(s[n])
  {
    if s != [] && !IsSpace(s[0]) then 1 + WordEnd(s[1..]) else 0
  }

  /** `s.split()` with no separator: the maximal runs of non-whitespace characters, in order. */
  function Words(s: string): seq<string>
    decreases |s|
  {
    var t := TrimStart(s);
    if t == [] then []
    else
      var n := WordEnd(t);
      [t[..n]] + Words(t[n..])
  }

  /** `" ".join(ws)`. */
  function JoinWords(ws: seq<string>): string {
    if ws == [] then [] else if |ws| == 1 then ws[0] else ws[0] + " " + JoinWords(ws[1..])
  }

  /** The resource is the query's words joined by single spaces: `" ".join(text.split())`. */
  lemma {:induction false} GetSourceStrJoinsWords(source: SourceArg)
    ensures GetSourceStr(source) == JoinWords(Words(QueryText(source)))
  {
    NormalizeJoinsWords(QueryText(source));
  }

  lemma {:induction false} NormalizeJoinsWords(s: string)
    ensures Strip(CollapseSpaces(s)) == JoinWords(Words(s))
    decreases |s|
  {
    var t := TrimStart(s);
    if t == [] {
      NormalizeSkipsLeadingSpace(s);
    } else {
      var v := AfterFirstWord(s);
      if v == [] {
        NormalizeLastWord(s);
      } else {
        assert |v| < |s| by {
          FirstWordBounds(t);
        }
        NormalizeJoinsWords(v);
        NormalizeNextWord(s);
      }
    }
  }

  /** The text's first word is not empty and starts and ends with a non-space character. */
  lemma {:induction false} FirstWordBounds(t: string)
    requires t != [] && !IsSpace(t[0])
    ensures 0 < WordEnd(t) <= |t|
    ensures var w := t[..WordEnd(t)]; !IsSpace(w[0]) && !IsSpace(w[|w| - 1])
  {
    var n := WordEnd(t);
    var w := t[..n];
    assert w[0] == t[0] && w[n - 1] == t[n - 1];
  }

  /** Normalising keeps the first word and continues with the rest collapsed. */
  lemma {:induction false} FirstWordCollapse(s: string, t: string, n: nat)
    requires t == TrimStart(s) && t != [] && n == WordEnd(t)
    ensures Strip(CollapseSpaces(s)) == Strip(t[..n] + CollapseSpaces(t[n..]))
  {
    var w, u := t[..n], t[n..];
    assert CollapseSpaces(t) == w + CollapseSpaces(u) by {
      forall i | 0 <= i < |w| ensures !IsSpace(w[i]) {
        assert w[i] == t[i];
      }
      CollapseWord(w, u);
      SplitAt(t, n);
    }
    assert Strip(CollapseSpaces(s)) == Strip(CollapseSpaces(t)) by {
      NormalizeSkipsLeadingSpace(s);
    }
  }

  /** A text holding one word normalises to that word. */
  lemma {:induction false} NormalizeLastWord(s: string)
    requires TrimStart(s) != [] && AfterFirstWord(s) == []
    ensures Strip(CollapseSpaces(s)) == JoinWords(Words(s))
  {
    var t := TrimStart(s);
    var n := WordEnd(t);
    var w, u := t[..n], t[n..];
    FirstWordBounds(t);
    assert Words(s) == [w] by {
      assert Words(u) == [];
    }
    assert Strip(CollapseSpaces(s)) == w by {
      FirstWordCollapse(s, t, n);
      CollapseOnlySpace(u);
      TrimEndWordSpace(w, CollapseSpaces(u));
    }
  }

  /** The first word of `s`. */
  function FirstWord(s: string): string {
    var t := TrimStart(s);
    t[..WordEnd(t)]
  }

  /** What follows the first word of `s`, without its leading whitespace. */
  function AfterFirstWord(s: string): string {
    var t := TrimStart(s);
    TrimStart(t[WordEnd(t)..])
  }

  /** A text whose first word is followed by more words: the word, a space and the rest normalised. */
  lemma {:induction false} NormalizeNextWord(s: string)
    requires TrimStart(s) != [] && AfterFirstWord(s) != []
    requires Strip(CollapseSpaces(AfterFirstWord(s))) == JoinWords(Words(AfterFirstWord(s)))
    ensures Strip(CollapseSpaces(s)) == JoinWords(Words(s))
  {
    NextWordNormalized(s);
    NextWordJoined(s);
  }

  lemma {:induction false} NextWordNormalized(s: string)
    requires TrimStart(s) != [] && AfterFirstWord(s) != []
    ensures Strip(CollapseSpaces(s)) == FirstWord(s) + " " + Strip(CollapseSpaces(AfterFirstWord(s)))
  {
    var t := TrimStart(s);
    var n := WordEnd(t);
    var w, u := t[..n], t[n..];
    assert w != [] && !IsSpace(w[0]) by {
      FirstWordBounds(t);
    }
    assert u != [] && IsSpace(u[0]);
    FirstWordCollapse(s, t, n);
    WordThenMore(w, u);
  }

  lemma {:induction false} NextWordJoined(s: string)
    requires TrimStart(s) != [] && AfterFirstWord(s) != []
    ensures JoinWords(Words(s)) == FirstWord(s) + " " + JoinWords(Words(AfterFirstWord(s)))
  {
    var t := TrimStart(s);
    var n := WordEnd(t);
    var u := t[n..];
    assert Words(s) == [FirstWord(s)] + Words(AfterFirstWord(s)) by {
      assert Words(s) == [FirstWord(s)] + Words(u);
      WordsSkipLeadingSpace(u);
    }
    JoinCons(FirstWord(s), Words(AfterFirstWord(s)));
  }

  // ---- helpers ----

  /** A word followed by whitespace and more text normalises to the word, a space and the rest normalised. */
  lemma {:induction false} WordThenMore(w: string, u: string)
    requires w != [] && !IsSpace(w[0])
    requires u != [] && IsSpace(u[0]) && TrimStart(u) != []
    ensures Strip(w + CollapseSpaces(u)) == w + " " + Strip(CollapseSpaces(TrimStart(u)))
  {
    var c := CollapseSpaces(TrimStart(u));
    assert c != [] && !IsSpace(c[0]);
    StripWordSpace(w, c);
    CollapseLeadingSpace(u);
    ConcatAssoc(w, " ", c);
  }

  /** Whitespace alone collapses to nothing or to one space. */
  lemma {:induction false} CollapseOnlySpace(u: string)
    requires TrimStart(u) == []
    ensures CollapseSpaces(u) == [] || CollapseSpaces(u) == " "
  {
  }

  lemma {:induction false} CollapseLeadingSpace(s: string)
    requires s != [] && IsSpace(s[0])
    ensures CollapseSpaces(s) == " " + CollapseSpaces(TrimStart(s))
  {
  }

  /** Leading whitespace does not change the words, and a text with something else has some. */
  lemma {:induction false} WordsSkipLeadingSpace(u: string)
    requires TrimStart(u) != []
    ensures Words(u) == Words(TrimStart(u)) != []
  {
    var v := TrimStart(u);
    assert TrimStart(v) == v;
  }

  lemma {:induction false} JoinCons(w: string, ws: seq<string>)
    requires ws != []
    ensures JoinWords([w] + ws) == w + " " + JoinWords(ws)
  {
    var all := [w] + ws;
    assert all[0] == w && all[1..] == ws;
  }

  /** A word, a space and a text starting with a non-space strip to the word, a space and the stripped text. */
  lemma {:induction false} StripWordSpace(w: string, c: string)
    requires w != [] && !IsSpace(w[0])
    requires c != [] && !IsSpace(c[0])
    ensures Strip(w + " " + c) == w + " " + Strip(c)
  {
    var a := w + " ";
    assert TrimStart(a + c) == a + c by {
      assert (a + c)[0] == w[0];
    }
    assert TrimStart(c) == c;
    TrimEndNonEmpty(c);
    TrimEndAppend(a, c);
  }

  /** Trimming the end of a text that starts with a non-space leaves something. */
  lemma {:induction false} TrimEndNonEmpty(s: string)
    requires s != [] && !IsSpace(s[0])
    ensures TrimEnd(s) != []
    decreases |s|
  {
    if IsSpace(s[|s| - 1]) {
      var init := s[..|s| - 1];
      assert init != [] && init[0] == s[0];
      TrimEndNonEmpty(init);
    }
  }

  /** Normalising ignores leading whitespace. */
  lemma {:induction false} NormalizeSkipsLeadingSpace(s: string)
    ensures Strip(CollapseSpaces(s)) == Strip(CollapseSpaces(TrimStart(s)))
  {
    var t := TrimStart(s);
    if s != [] && IsSpace(s[0]) {
      var c := CollapseSpaces(t);
      assert CollapseSpaces(s) == " " + c;
      assert TrimStart(" " + c) == TrimStart(c) by {
        assert (" " + c)[1..] == c;
      }
      assert TrimStart(c) == c;
    }
  }

  /** A word followed by the rest collapses as the word followed by the collapsed rest. */
  lemma {:induction false} CollapseWord(w: string, u: string)
    requires forall i :: 0 <= i < |w| ==> !IsSpace(w[i])
    ensures CollapseSpaces(w + u) == w + CollapseSpaces(u)
    decreases |w|
  {
    if w == [] {
      assert w + u == u;
    } else {
      var rest := w[1..];
      assert CollapseSpaces(rest + u) == rest + CollapseSpaces(u) by {
        forall i | 0 <= i < |rest| ensures !IsSpace(rest[i]) {
          assert rest[i] == w[i + 1];
        }
        CollapseWord(rest, u);
      }
      calc {
        CollapseSpaces(w + u);
        { assert (w + u)[0] == w[0] && (w + u)[1..] == rest + u; }
        [w[0]] + CollapseSpaces(rest + u);
        [w[0]] + (rest + CollapseSpaces(u));
        { ConcatAssoc([w[0]], rest, CollapseSpaces(u)); HeadTail(w); }
        w + CollapseSpaces(u);
      }
    }
  }

  /** Trailing whitespace of `a + b` is that of `b`, when `b` has something else. */
  lemma {:induction false} TrimEndAppend(a: string, b: string)
    requires TrimEnd(b) != []
    ensures TrimEnd(a + b) == a + TrimEnd(b)
    decreases |b|
  {
    var ab := a + b;
    if IsSpace(b[|b| - 1]) {
      assert ab[..|ab| - 1] == a + b[..|b| - 1];
      TrimEndAppend(a, b[..|b| - 1]);
    }
  }

  /** A word followed by nothing or by one space strips to the word. */
  lemma {:induction false} TrimEndWordSpace(w: string, tail: string)
    requires w != [] && !IsSpace(w[0]) && !IsSpace(w[|w| - 1])
    requires tail == [] || tail == " "
    ensures Strip(w + tail) == w
  {
    var wt := w + tail;
    assert TrimEnd(w) == w;
    if tail == [] {
      assert wt == w;
      assert TrimStart(w) == w;
    } else {
      assert TrimStart(wt) == wt by {
        assert wt[0] == w[0];
      }
      assert TrimEnd(wt) == TrimEnd(w) by {
        assert wt[..|wt| - 1] == w;
        assert wt[|wt| - 1] == ' ';
      }
    }
  }

  lemma {:induction false} ConsSingleSpaced(c: char, s: string)
    requires SingleSpaced(s)
    requires IsSpace(c) ==> c == ' ' && (s == [] || !IsSpace(s[0]))
    ensures SingleSpaced([c] + s)
  {
    var r := [c] + s;
    forall i | 1 <= i < |r| ensures r[i] == s[i - 1] { }
  }

  lemma {:induction false} NonSpaceAppend(a: string, b: string)
    ensures NonSpace(a + b) == NonSpace(a) + NonSpace(b)
    decreases |a|
  {
    if a != [] {
      assert (a + b)[1..] == a[1..] + b;
      NonSpaceAppend(a[1..], b);
    } else {
      assert a + b == b;
    }
  }

  lemma {:induction false} NonSpaceOfTrimStart(s: string)
    ensures NonSpace(TrimStart(s)) == NonSpace(s)
    decreases |s|
  {
    if s != [] && IsSpace(s[0]) {
      NonSpaceOfTrimStart(s[1..]);
    }
  }

  lemma {:induction false} NonSpaceOfTrimEnd(s: string)
    ensures NonSpace(TrimEnd(s)) == NonSpace(s)
    decreases |s|
  {
    if s != [] && IsSpace(s[|s| - 1]) {
      var init := s[..|s| - 1];
      NonSpaceOfTrimEnd(init);
      assert s == init + [s[|s| - 1]];
      NonSpaceAppend(init, [s[|s| - 1]]);
    }
  }

  /** A slice of a single-spaced string is single-spaced. */
  lemma {:induction false} SingleSpacedSlice(s: string, lo: nat, hi: nat)
    requires lo <= hi <= |s|
    ensures SingleSpaced(s) ==> SingleSpaced(s[lo..hi])
  {
    if SingleSpaced(s) {
      var r := s[lo..hi];
      forall j | 0 <= j < |r| ensures r[j] == s[lo + j] { }
    }
  }

  /** Collapsing a single-spaced string changes nothing. */
  lemma {:induction false} CollapseFixesSingleSpaced(s: string)
    requires SingleSpaced(s)
    ensures CollapseSpaces(s) == s
    decreases |s|
  {
    if s != [] {
      var t := s[1..];
      SingleSpacedSlice(s, 1, |s|);
      CollapseFixesSingleSpaced(t);
      if IsSpace(s[0]) {
        assert t == [] || !IsSpace(t[0]) by {
          if t != [] { assert t[0] == s[1]; }
        }
        assert TrimStart(s) == t;
        assert s[0] == ' ';
        assert CollapseSpaces(s) == [' '] + t;
      } else {
        assert CollapseSpaces(s) == [s[0]] + t;
      }
      HeadTail(s);
    }
  }
}
