/**
 * Character classes and tokenisers behind `str.lower()`, the regular expressions
 * `\w+` and `[^\w\s]`, and `str.split()`. Only the Latin-1 range is classified:
 * characters above U+00FF are neither upper case, word characters nor whitespace.
 */
module Text {
  import opened Seqs

  predicate IsUpper(c: char)
  {
    ('A' <= c <= 'Z') || ('À' <= c <= 'Þ' && c != '×')
  }

  /** `c.lower()` on one character. */
  function LowerChar(c: char): (d: char)
    ensures !IsUpper(d)
    ensures !IsUpper(c) ==> d == c
  {
    if IsUpper(c) then (c as int + 32) as char else c
  }

  /** `s.lower()`. */
  function Lower(s: string): (r: string)
    ensures |r| == |s|
    ensures forall i :: 0 <= i < |s| ==> r[i] == LowerChar(s[i])
  {
    seq(|s|, i requires 0 <= i < |s| => LowerChar(s[i]))
  }

  predicate IsLowerCase(s: string)
  {
    forall i :: 0 <= i < |s| ==> !IsUpper(s[i])
  }

  /** `[k.lower() for k in ks]`. */
  function LowerAll(ks: seq<string>): (r: seq<string>)
    ensures |r| == |ks|
    ensures forall i :: 0 <= i < |ks| ==> r[i] == Lower(ks[i])
  {
    seq(|ks|, i requires 0 <= i < |ks| => Lower(ks[i]))
  }

  /** Lower-casing a lower-case string changes nothing. */
  lemma LowerIdempotent(s: string)
    ensures IsLowerCase(Lower(s))
    ensures Lower(Lower(s)) == Lower(s)
  {
  }

  /** `\w` in a Unicode pattern: letters, digits and underscore. */
  predicate IsWordChar(c: char)
  {
    || ('a' <= c <= 'z') || ('A' <= c <= 'Z') || ('0' <= c <= '9') || c == '_'
    || c == 'ª' || c == '²' || c == '³' || c == 'µ' || c == '¹' || c == 'º'
    || ('¼' <= c <= '¾') || ('À' <= c <= 'ÿ' && c != '×' && c != '÷')
  }

  /** `str.isspace()` (also `\s`). */
  predicate IsSpace(c: char)
  {
    ('\U{9}' <= c <= '\U{D}') || ('\U{1C}' <= c <= '\U{1F}') || c == ' ' || c == '\U{85}' || c == '\U{A0}'
  }

  predicate All(w: string, p: char -> bool)
  {
    forall i :: 0 <= i < |w| ==> p(w[i])
  }

  /**
   * The maximal runs of characters satisfying `p`, in order; `cur` is the run being read.
   * `re.findall(r"\b\w+\b", s)` is `Runs(s, IsWordChar)`, `s.split()` is `Runs(s, not IsSpace)`.
   */
  function RunsFrom(s: string, p: char -> bool, cur: string): (r: seq<string>)
    requires All(cur, p)
    ensures forall w :: w in r ==> w != [] && All(w, p)
    decreases |s|
  {
    if s == [] then (if cur == [] then [] else [cur])
    else if p(s[0]) then RunsFrom(s[1..], p, cur + [s[0]])
    else (if cur == [] then [] else [cur]) + RunsFrom(s[1..], p, [])
  }

  function Runs(s: string, p: char -> bool): (r: seq<string>)
    ensures forall w :: w in r ==> w != [] && All(w, p)
  {
    RunsFrom(s, p, [])
  }

  function Concat(ws: seq<string>): string
  {
    if ws == [] then [] else ws[0] + Concat(ws[1..])
  }

  lemma {:induction false} ConcatAppend(a: seq<string>, b: seq<string>)
    ensures Concat(a + b) == Concat(a) + Concat(b)
  {
    if a != [] {
      assert (a + b)[1..] == a[1..] + b;
      ConcatAppend(a[1..], b);
    } else {
      assert a + b == b;
    }
  }

  /** Reading runs keeps exactly the characters satisfying `p`, in order, and nothing else. */
  lemma {:induction false} RunsFromKeepChars(s: string, p: char -> bool, cur: string)
    requires All(cur, p)
    ensures Concat(RunsFrom(s, p, cur)) == cur + Filter(s, p)
    decreases |s|, 1
  {
    if s == [] {
    } else if p(s[0]) {
      RunsFromKeepWordChar(s, p, cur);
    } else {
      RunsFromKeepSeparator(s, p, cur);
    }
  }

  /** A character satisfying `p` extends the current run. */
  lemma AllSnoc(cur: string, c: char, p: char -> bool)
    requires All(cur, p) && p(c)
    ensures All(cur + [c], p)
  {
    forall i | 0 <= i < |cur + [c]| ensures p((cur + [c])[i]) {
      if i < |cur| {
        assert (cur + [c])[i] == cur[i];
      }
    }
  }

  /** The step of `RunsFromKeepChars` on a character that extends the run. */
  lemma {:induction false} RunsFromKeepWordChar(s: string, p: char -> bool, cur: string)
    requires All(cur, p) && s != [] && p(s[0])
    ensures Concat(RunsFrom(s, p, cur)) == cur + Filter(s, p)
    decreases |s|, 0
  {
    AllSnoc(cur, s[0], p);
    calc {
      Concat(RunsFrom(s, p, cur));
      Concat(RunsFrom(s[1..], p, cur + [s[0]]));
      { RunsFromKeepChars(s[1..], p, cur + [s[0]]); }
      (cur + [s[0]]) + Filter(s[1..], p);
      cur + ([s[0]] + Filter(s[1..], p));
      { FilterCons(s, p); }
      cur + Filter(s, p);
    }
  }

  /** The step of `RunsFromKeepChars` on a character that closes the run. */
  lemma {:induction false} RunsFromKeepSeparator(s: string, p: char -> bool, cur: string)
    requires All(cur, p) && s != [] && !p(s[0])
    ensures Concat(RunsFrom(s, p, cur)) == cur + Filter(s, p)
    decreases |s|, 0
  {
    var closed := if cur == [] then [] else [cur];
    assert Concat(closed) == cur by {
      if cur != [] {
        assert Concat(closed) == cur + Concat([]);
      }
    }
    calc {
      Concat(RunsFrom(s, p, cur));
      Concat(closed + RunsFrom(s[1..], p, []));
      { ConcatAppend(closed, RunsFrom(s[1..], p, [])); }
      Concat(closed) + Concat(RunsFrom(s[1..], p, []));
      { RunsFromKeepChars(s[1..], p, []); }
      cur + ([] + Filter(s[1..], p));
      { FilterCons(s, p); }
      cur + Filter(s, p);
    }
  }

  lemma {:induction false} FilterCons(s: string, p: char -> bool)
    requires s != []
    ensures Filter(s, p) == (if p(s[0]) then [s[0]] else []) + Filter(s[1..], p)
    decreases |s|
  {
    if |s| > 1 {
      var t, last := s[..|s| - 1], s[|s| - 1];
      var head := if p(s[0]) then [s[0]] else [];
      var tail := if p(last) then [last] else [];
      FilterCons(t, p);
      assert t[0] == s[0];
      assert t[1..] == s[1..][..|s[1..]| - 1];
      assert s[1..][|s[1..]| - 1] == last;
      assert Filter(s[1..], p) == Filter(t[1..], p) + tail;
      calc {
        Filter(s, p);
        Filter(t, p) + tail;
        (head + Filter(t[1..], p)) + tail;
        head + (Filter(t[1..], p) + tail);
        head + Filter(s[1..], p);
      }
    } else {
      assert s[..|s| - 1] == [];
      assert s[1..] == [];
    }
  }

  lemma RunsKeepChars(s: string, p: char -> bool)
    ensures Concat(Runs(s, p)) == Filter(s, p)
  {
    RunsFromKeepChars(s, p, []);
  }

  /**
   * Runs are unaffected by a character map `f` that keeps every `p`-character and under
   * which `q` holds of `f(c)` exactly when `p` holds of `c`.
   */
  lemma {:induction false} RunsFromMap(s: string, f: char -> char, p: char -> bool, q: char -> bool, cur: string)
    requires forall c :: q(f(c)) == p(c)
    requires forall c :: p(c) ==> f(c) == c
    requires All(cur, p)
    ensures RunsFrom(Map(s, f), q, cur) == RunsFrom(s, p, cur)
    decreases |s|
  {
    if s != [] {
      assert Map(s, f)[1..] == Map(s[1..], f);
      RunsFromMap(s[1..], f, p, q, if p(s[0]) then cur + [s[0]] else []);
    }
  }

  function Map(s: string, f: char -> char): (r: string)
    ensures |r| == |s|
    ensures forall i :: 0 <= i < |s| ==> r[i] == f(s[i])
  {
    seq(|s|, i requires 0 <= i < |s| => f(s[i]))
  }

  /** `simple_tokenize`: the maximal runs of word characters of the lower-cased text. */
  function SimpleTokenize(text: string): (ws: seq<string>)
    ensures forall w :: w in ws ==> w != [] && All(w, IsWordChar) && IsLowerCase(w)
  {
    var r := Runs(Lower(text), IsWordChar);
    assert forall w :: w in r ==> IsLowerCase(w) by {
      forall w | w in r ensures IsLowerCase(w) {
        RunsLowerCase(Lower(text), IsWordChar, [], w);
      }
    }
    r
  }

  lemma {:induction false} RunsLowerCase(s: string, p: char -> bool, cur: string, w: string)
    requires All(cur, p) && IsLowerCase(s) && IsLowerCase(cur)
    requires w in RunsFrom(s, p, cur)
    ensures IsLowerCase(w)
    decreases |s|
  {
    if s != [] {
      if p(s[0]) {
        RunsLowerCase(s[1..], p, cur + [s[0]], w);
      } else if w != cur {
        RunsLowerCase(s[1..], p, [], w);
      }
    }
  }

  /** `[^\w\s]` replaced by a space, as in `re.sub(r"[^\w\s]", " ", text)`. */
  function Unpunct(c: char): char
  {
    if IsWordChar(c) || IsSpace(c) then c else ' '
  }

  predicate NotSpace(c: char) { !IsSpace(c) }

  /** `re.sub(r"[^\w\s]", " ", text.lower()).split()`. */
  function SplitWords(text: string): seq<string>
  {
    Runs(Map(Lower(text), Unpunct), NotSpace)
  }

  /** Splitting after blanking punctuation yields exactly the `simple_tokenize` tokens. */
  lemma SplitWordsIsSimpleTokenize(text: string)
    ensures SplitWords(text) == SimpleTokenize(text)
  {
    RunsFromMap(Lower(text), Unpunct, IsWordChar, NotSpace, []);
  }

  /** The number of words `len(s.split())`. */
  function WordCount(s: string): nat
  {
    |Runs(s, NotSpace)|
  }
}
