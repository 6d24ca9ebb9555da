/**
 * The list-query builder: from the parsed query string it derives the filter
 * conditions (with comparison operators given their `$` prefix), the sort
 * spec, the projection, and the page window (limit and skip).
 *
 * The operator rewrite is a regular-expression replacement over the JSON text
 * of the filter object. Every JSON string (key or value) is delimited by
 * quotes, so whole words never cross from one string into the next; the model
 * therefore applies the replacement to each string separately, as it reads
 * once serialised:
 *  - word characters are the ASCII letters, digits and `_`;
 *  - a whole word `gte`, `gt`, `lte` or `lt` gets one `$` in front of it;
 *  - a control character (below U+0020) is serialised as an escape whose last
 *    character is a word character (`\n`, `\u001f`), so a word directly after
 *    it is not whole and stays as it is. `"` and `\` serialise as `\"` and
 *    `\\`, which end in non-word characters and so separate words as usual.
 */
module APIFeatures {
  import opened Js
  import opened AppErrors
  import opened Http

  // ---------------------------------------------------------------------
  // The operator rewrite on one string
  // ---------------------------------------------------------------------

  predicate IsWordChar(c: char)
  {
    'a' <= c <= 'z' || 'A' <= c <= 'Z' || '0' <= c <= '9' || c == '_'
  }

  /** Characters JSON serialises as an escape ending in a word character. */
  predicate IsEscapedControl(c: char)
  {
    c < ' '
  }

  /** One of the words `gte`, `gt`, `lte` and `lt`, spelt out by letter. */
  predicate IsOperatorWord(w: string)
  {
    (|w| == 2 || |w| == 3) && (w[0] == 'g' || w[0] == 'l') && w[1] == 't' && (|w| == 3 ==> w[2] == 'e')
  }

  /** The length of the run of word characters at the start of s. */
  function WordRun(s: string): (n: nat)
    ensures n <= |s|
    ensures n < |s| ==> !IsWordChar(s[n])
  {
    if s != [] && IsWordChar(s[0]) then 1 + WordRun(s[1..]) else 0
  }

  /** The run is made of word characters. */
  lemma {:induction false} WordRunChars(s: string)
    ensures forall i :: 0 <= i < WordRun(s) ==> IsWordChar(s[i])
  {
    if s != [] && IsWordChar(s[0]) {
      WordRunChars(s[1..]);
      assert forall i :: 1 <= i < WordRun(s) ==> s[i] == s[1..][i - 1];
    }
  }

  /** The replacement over s; `glued` says that the character serialised just
      before s ends in a word character, so a word at the start of s is not
      whole. */
  function RewriteFrom(s: string, glued: bool): string
    decreases |s|
  {
    if s == [] then []
    else if IsWordChar(s[0]) then
      var n := WordRun(s);
      (if !glued && IsOperatorWord(s[..n]) then "$" + s[..n] else s[..n]) + RewriteFrom(s[n..], false)
    else [s[0]] + RewriteFrom(s[1..], IsEscapedControl(s[0]))
  }

  /** The replacement applied to one serialised string (key or value): it is
      preceded by a quote, so its first word is whole. */
  function Rewrite(s: string): string
  {
    RewriteFrom(s, false)
  }

  /** Drops every `$` that directly precedes a whole operator word: the
      inverse of the replacement. */
  function Unrewrite(t: string): string
    decreases |t|
  {
    if t == [] then []
    else if IsWordChar(t[0]) then
      var n := WordRun(t);
      t[..n] + Unrewrite(t[n..])
    else if t[0] == '$' && IsOperatorWord(t[1..][..WordRun(t[1..])]) then Unrewrite(t[1..])
    else [t[0]] + Unrewrite(t[1..])
  }

  /** The number of words the replacement prefixes. */
  function OpWords(s: string, glued: bool): nat
    decreases |s|
  {
    if s == [] then 0
    else if IsWordChar(s[0]) then
      var n := WordRun(s);
      (if !glued && IsOperatorWord(s[..n]) then 1 else 0) + OpWords(s[n..], false)
    else OpWords(s[1..], IsEscapedControl(s[0]))
  }

  lemma {:induction false} WordRunConcat(w: string, rest: string)
    requires forall i :: 0 <= i < |w| ==> IsWordChar(w[i])
    requires rest == [] || !IsWordChar(rest[0])
    ensures WordRun(w + rest) == |w|
  {
    if w != [] {
      assert (w + rest)[1..] == w[1..] + rest;
      WordRunConcat(w[1..], rest);
    }
  }

  /** The output starts with a word character only where the input does. */
  lemma RewriteHead(s: string, glued: bool)
    ensures RewriteFrom(s, glued) == [] <==> s == []
    ensures s != [] && !IsWordChar(s[0]) ==> RewriteFrom(s, glued)[0] == s[0]
  {
  }

  /** The first whole word of an output is never an operator word: each one
      there was given its `$`. */
  lemma FirstWordNotOperator(s: string)
    ensures var r := RewriteFrom(s, false); !IsOperatorWord(r[..WordRun(r)])
  {
    var r := RewriteFrom(s, false);
    if s != [] && IsWordChar(s[0]) {
      var n := WordRun(s);
      var w := s[..n];
      if !IsOperatorWord(w) {
        var tail := RewriteFrom(s[n..], false);
        RewriteHead(s[n..], false);
        WordRunChars(s);
        WordRunConcat(w, tail);
        assert r == w + tail;
        assert r[..WordRun(r)] == w;
      }
    }
  }

  /** Unrewrite keeps a leading whole word that is not behind a `$`. */
  lemma UnrewriteWord(w: string, tail: string)
    requires w != [] && forall i :: 0 <= i < |w| ==> IsWordChar(w[i])
    requires tail == [] || !IsWordChar(tail[0])
    ensures Unrewrite(w + tail) == w + Unrewrite(tail)
  {
    WordRunConcat(w, tail);
    assert (w + tail)[..|w|] == w && (w + tail)[|w|..] == tail;
  }

  /** An operator word is a non-empty run of word characters. */
  lemma OperatorWordIsWord(w: string)
    requires IsOperatorWord(w)
    ensures w != [] && forall i :: 0 <= i < |w| ==> IsWordChar(w[i])
  {
  }

  /** Unrewrite drops a `$` in front of a whole operator word. */
  lemma UnrewriteDollar(w: string, tail: string)
    requires IsOperatorWord(w)
    requires tail == [] || !IsWordChar(tail[0])
    ensures Unrewrite("$" + w + tail) == Unrewrite(w + tail)
  {
    var u := w + tail;
    var t := ['$'] + u;
    assert "$" + w + tail == t;
    OperatorWordIsWord(w);
    WordRunConcat(w, tail);
    assert t[1..] == u;
    assert u[..WordRun(u)] == w;
    UnrewriteDropDollar(t);
  }

  /** The case of Unrewrite that drops a `$`. */
  lemma UnrewriteDropDollar(t: string)
    requires t != [] && t[0] == '$' && IsOperatorWord(t[1..][..WordRun(t[1..])])
    ensures Unrewrite(t) == Unrewrite(t[1..])
  {
  }

  /** Unrewrite keeps any other non-word character. */
  lemma UnrewriteOther(c: char, tail: string)
    requires !IsWordChar(c)
    requires c == '$' ==> !IsOperatorWord(tail[..WordRun(tail)])
    ensures Unrewrite([c] + tail) == [c] + Unrewrite(tail)
  {
    assert ([c] + tail)[1..] == tail;
  }

  /** The replacement of a leading word, followed by the rest. */
  lemma RewriteWordUnfold(s: string, glued: bool)
    requires s != [] && IsWordChar(s[0])
    ensures var w, tail := s[..WordRun(s)], RewriteFrom(s[WordRun(s)..], false);
      RewriteFrom(s, glued) == if !glued && IsOperatorWord(w) then "$" + w + tail else w + tail
  {
  }

  /** Unrewrite of the output for one word, given that of the rest. */
  lemma UnrewriteWordOutput(w: string, rest: string, tail: string, r: string, glued: bool)
    requires w != [] && forall i :: 0 <= i < |w| ==> IsWordChar(w[i])
    requires tail == [] || !IsWordChar(tail[0])
    requires Unrewrite(tail) == rest
    requires r == if !glued && IsOperatorWord(w) then "$" + w + tail else w + tail
    ensures Unrewrite(r) == w + rest
  {
    UnrewriteWord(w, tail);
    if !glued && IsOperatorWord(w) {
      UnrewriteDollar(w, tail);
    }
  }

  /** One step of the round trip over a leading word, given the round trip
      of what follows the word. */
  lemma RoundTripWordStep(s: string, glued: bool)
    requires s != [] && IsWordChar(s[0])
    requires Unrewrite(RewriteFrom(s[WordRun(s)..], false)) == s[WordRun(s)..]
    ensures Unrewrite(RewriteFrom(s, glued)) == s
  {
    var n := WordRun(s);
    var w, rest := s[..n], s[n..];
    var tail := RewriteFrom(rest, false);
    RewriteHead(rest, false);
    RewriteWordUnfold(s, glued);
    WordRunChars(s);
    UnrewriteWordOutput(w, rest, tail, RewriteFrom(s, glued), glued);
    assert s == w + rest;
  }

  /** One step of the round trip over a leading non-word character, given
      the round trip of the rest. */
  lemma RoundTripOtherStep(s: string, glued: bool)
    requires s != [] && !IsWordChar(s[0])
    requires Unrewrite(RewriteFrom(s[1..], IsEscapedControl(s[0]))) == s[1..]
    ensures Unrewrite(RewriteFrom(s, glued)) == s
  {
    var c := s[0];
    var tail := RewriteFrom(s[1..], IsEscapedControl(c));
    assert RewriteFrom(s, glued) == [c] + tail;
    if c == '$' {
      FirstWordNotOperator(s[1..]);
    }
    UnrewriteOther(c, tail);
    assert s == [c] + s[1..];
  }

  /** Undoing the replacement gives the input back. */
  lemma {:induction false} RewriteRoundTrip(s: string, glued: bool)
    ensures Unrewrite(RewriteFrom(s, glued)) == s
    decreases |s|
  {
    if s == [] {
    } else if IsWordChar(s[0]) {
      RewriteRoundTrip(s[WordRun(s)..], false);
      RoundTripWordStep(s, glued);
    } else {
      RewriteRoundTrip(s[1..], IsEscapedControl(s[0]));
      RoundTripOtherStep(s, glued);
    }
  }

  lemma RewriteRoundTripAll()
    ensures forall s :: Unrewrite(Rewrite(s)) == s
  {
    forall s
      ensures Unrewrite(Rewrite(s)) == s
    {
      RewriteRoundTrip(s, false);
    }
  }

  /** Two different strings never serialise to the same rewritten string. */
  lemma RewriteInjective(a: string, b: string)
    requires Rewrite(a) == Rewrite(b)
    ensures a == b
  {
    RewriteRoundTrip(a, false);
    RewriteRoundTrip(b, false);
  }

  /** Every prefixed word adds exactly one character. */
  lemma {:induction false} RewriteLength(s: string, glued: bool)
    ensures |RewriteFrom(s, glued)| == |s| + OpWords(s, glued)
    decreases |s|
  {
    if s == [] {
    } else if IsWordChar(s[0]) {
      RewriteLength(s[WordRun(s)..], false);
    } else {
      RewriteLength(s[1..], IsEscapedControl(s[0]));
    }
  }

  /** A `$` in front of an operator word leaves the count as it is. */
  lemma OpWordsDollar(w: string, tail: string)
    requires IsOperatorWord(w)
    requires tail == [] || !IsWordChar(tail[0])
    ensures OpWords("$" + w + tail, false) == 1 + OpWords(tail, false)
  {
    var u := w + tail;
    var t := ['$'] + u;
    assert "$" + w + tail == t;
    OperatorWordIsWord(w);
    WordRunConcat(w, tail);
    assert u[..WordRun(u)] == w && u[WordRun(u)..] == tail;
    assert t[1..] == u;
    assert OpWords(t, false) == OpWords(u, false);
  }

  /** One step of OpWordsPreserved over a leading word, given the count for
      what follows the word. */
  lemma OpWordsWordStep(s: string, glued: bool)
    requires s != [] && IsWordChar(s[0])
    requires OpWords(RewriteFrom(s[WordRun(s)..], false), false) == OpWords(s[WordRun(s)..], false)
    ensures OpWords(RewriteFrom(s, glued), glued) == OpWords(s, glued)
  {
    var n := WordRun(s);
    var w, rest := s[..n], s[n..];
    var tail := RewriteFrom(rest, false);
    var u := w + tail;
    RewriteHead(rest, false);
    WordRunChars(s);
    WordRunConcat(w, tail);
    assert u[..n] == w && u[n..] == tail;
    if !glued && IsOperatorWord(w) {
      OpWordsDollar(w, tail);
      assert RewriteFrom(s, glued) == "$" + w + tail;
    } else {
      assert RewriteFrom(s, glued) == u;
      assert OpWords(u, glued) == OpWords(tail, false);
    }
  }

  /** One step of OpWordsPreserved over a leading non-word character, given
      the count for the rest. */
  lemma OpWordsOtherStep(s: string, glued: bool)
    requires s != [] && !IsWordChar(s[0])
    requires OpWords(RewriteFrom(s[1..], IsEscapedControl(s[0])), IsEscapedControl(s[0]))
             == OpWords(s[1..], IsEscapedControl(s[0]))
    ensures OpWords(RewriteFrom(s, glued), glued) == OpWords(s, glued)
  {
    var c := s[0];
    var tail := RewriteFrom(s[1..], IsEscapedControl(c));
    var t := [c] + tail;
    assert RewriteFrom(s, glued) == t;
    assert t[1..] == tail;
  }

  /** A second pass finds exactly the words the first pass prefixed. */
  lemma {:induction false} OpWordsPreserved(s: string, glued: bool)
    ensures OpWords(RewriteFrom(s, glued), glued) == OpWords(s, glued)
    decreases |s|
  {
    if s == [] {
    } else if IsWordChar(s[0]) {
      OpWordsPreserved(s[WordRun(s)..], false);
      OpWordsWordStep(s, glued);
    } else {
      OpWordsPreserved(s[1..], IsEscapedControl(s[0]));
      OpWordsOtherStep(s, glued);
    }
  }

  /** A string with no whole operator word is left as it is. */
  lemma {:induction false} NoOperatorUnchanged(s: string, glued: bool)
    requires OpWords(s, glued) == 0
    ensures RewriteFrom(s, glued) == s
    decreases |s|
  {
    if s == [] {
    } else if IsWordChar(s[0]) {
      var n := WordRun(s);
      NoOperatorUnchanged(s[n..], false);
      assert s == s[..n] + s[n..];
    } else {
      NoOperatorUnchanged(s[1..], IsEscapedControl(s[0]));
      assert s == [s[0]] + s[1..];
    }
  }

  /** The replacement is not idempotent: a second pass prefixes every
      operator word once more. */
  lemma RewriteNotIdempotent(s: string)
    ensures OpWords(s, false) > 0 <==> Rewrite(Rewrite(s)) != Rewrite(s)
    ensures |Rewrite(Rewrite(s))| == |s| + 2 * OpWords(s, false)
  {
    RewriteLength(s, false);
    RewriteLength(Rewrite(s), false);
    OpWordsPreserved(s, false);
    if OpWords(s, false) == 0 {
      NoOperatorUnchanged(Rewrite(s), false);
    }
  }

  /** A single word: an operator word gets its `$`, any other is kept. */
  lemma SingleWord(w: string)
    requires forall i :: 0 <= i < |w| ==> IsWordChar(w[i])
    ensures IsOperatorWord(w) ==> Rewrite(w) == "$" + w
    ensures !IsOperatorWord(w) ==> Rewrite(w) == w && Unrewrite(w) == w
  {
    if w != [] {
      WordRunConcat(w, []);
      assert w + [] == w;
      assert w[..|w|] == w && w[|w|..] == [];
    }
  }

  /** Whole operator words get their `$`. */
  lemma OperatorWordExamples()
    ensures Rewrite("gte") == "$gte" && Rewrite("lt") == "$lt"
  {
    SingleWord("gte");
    SingleWord("lt");
  }

  /** Words that merely contain an operator word are kept. */
  lemma PartWordExamples()
    ensures Rewrite("gtx") == "gtx"
    ensures Rewrite("price_gte") == "price_gte"
  {
    SingleWord("gtx");
    var p := "price_gte";
    assert forall i :: 0 <= i < |p| ==> IsWordChar(p[i]);
    SingleWord(p);
  }

  /** A `$` is not a word character, so an operator behind one is prefixed
      again. */
  lemma DollarExample()
    ensures Rewrite("$gte") == "$$gte"
  {
    var s := "$gte";
    assert s[0] == '$' && s[1..] == "gte";
    SingleWord("gte");
  }

  /** A word right after a control character is glued to the escape's last
      character and stays as it is. */
  lemma ControlExample()
    ensures Rewrite("\nlt") == "\nlt"
  {
    var s := "\nlt";
    assert s[0] == '\n' && s[1..] == "lt";
    var w := "lt";
    WordRunConcat(w, []);
    assert w + [] == w;
    assert w[..|w|] == w && w[|w|..] == [];
    assert RewriteFrom(w, true) == w;
  }

  // ---------------------------------------------------------------------
  // The filter object
  // ---------------------------------------------------------------------

  /** The replacement applied to a value, inside nested objects and lists
      too (keys and strings alike). */
  function RewriteValue(v: QueryValue): QueryValue
  {
    match v
    case QStr(s) => QStr(Rewrite(s))
    case QList(items) => QList(seq(|items|, i requires 0 <= i < |items| => RewriteValue(items[i])))
    case QObject(fields) =>
      QObject(seq(|fields|, i requires 0 <= i < |fields| => (Rewrite(fields[i].0), RewriteValue(fields[i].1))))
  }

  /** The top level of the rewritten object: every key and value rewritten. */
  function RewriteObject(m: map<string, QueryValue>): (r: map<string, QueryValue>)
    ensures forall k :: k in m ==> Rewrite(k) in r && r[Rewrite(k)] == RewriteValue(m[k])
    ensures forall k :: k in r ==> Unrewrite(k) in m && Rewrite(Unrewrite(k)) == k
  {
    RewriteRoundTripAll();
    map k | k in m :: Rewrite(k) := RewriteValue(m[k])
  }

  /** The parameters the builder reads itself, removed before filtering. */
  const ExcludeFields: seq<string> := ["page", "sort", "limit", "field"]

  function Reserved(): set<string>
  {
    {"page", "sort", "limit", "field"}
  }

  /** The conditions `filter` hands to `find`. */
  function FilterConditions(q: map<string, QueryValue>): (r: map<string, QueryValue>)
    ensures forall k :: k in q && k !in Reserved() ==> Rewrite(k) in r && r[Rewrite(k)] == RewriteValue(q[k])
    ensures forall k :: k in r ==> Unrewrite(k) in q && Unrewrite(k) !in Reserved() && Rewrite(Unrewrite(k)) == k
  {
    RewriteObject(q - Reserved())
  }

  /** `filter` drops exactly the four builder parameters, and keeps every
      other key, with its value, and with nothing to prefix, unchanged. */
  lemma FilterKeys(q: map<string, QueryValue>)
    ensures forall k :: k in Reserved() ==> k !in FilterConditions(q)
    ensures forall k :: k in q && k !in Reserved() && OpWords(k, false) == 0 ==>
              k in FilterConditions(q) && FilterConditions(q)[k] == RewriteValue(q[k])
  {
    var r := FilterConditions(q);
    forall k | k in Reserved()
      ensures k !in r
    {
      assert forall i :: 0 <= i < |k| ==> IsWordChar(k[i]);
      SingleWord(k);
    }
    forall k | k in q && k !in Reserved() && OpWords(k, false) == 0
      ensures k in r && r[k] == RewriteValue(q[k])
    {
      NoOperatorUnchanged(k, false);
    }
  }

  /** Values are rewritten as well as keys: `?difficulty=lt` filters on the
      string "$lt". */
  lemma ValuesRewrittenToo(q: map<string, QueryValue>, key: string, v: string)
    requires key in q && key !in Reserved() && OpWords(key, false) == 0
    requires q[key] == QStr(v) && IsOperatorWord(v)
    ensures key in FilterConditions(q) && FilterConditions(q)[key] == QStr("$" + v)
  {
    NoOperatorUnchanged(key, false);
    assert forall i :: 0 <= i < |v| ==> IsWordChar(v[i]);
    SingleWord(v);
  }

  // ---------------------------------------------------------------------
  // Sort, projection and the page window
  // ---------------------------------------------------------------------

  /** A query-string parameter is truthy when present and not "". */
  predicate Truthy(q: map<string, QueryValue>, key: string)
  {
    key in q && q[key] != QStr("")
  }

  /** The JavaScript string conversion of a parsed value. */
  function JsString(v: QueryValue): string
  {
    match v
    case QStr(s) => s
    case QList(items) => Join(seq(|items|, i requires 0 <= i < |items| => JsString(items[i])), ",")
    case QObject(_) => "[object Object]"
  }

  /** `(param || fallback).split(",").join(" ")`; a repeated or bracketed
      parameter has no `split` and throws. */
  function ListParam(q: map<string, QueryValue>, key: string, fallback: string): (r: Result<string>)
    ensures !Truthy(q, key) ==> r == Ok(ReplaceChar(fallback, ',', ' '))
    ensures Truthy(q, key) && q[key].QStr? ==> r == Ok(ReplaceChar(q[key].s, ',', ' '))
    ensures Truthy(q, key) && !q[key].QStr? ==> r.Err? && r.err.name == "TypeError" && !r.err.operational
    ensures r.Ok? ==> ',' !in r.value
  {
    var text := if !Truthy(q, key) then Some(fallback) else if q[key].QStr? then Some(q[key].s) else None;
    match text
    case None => Err(SplitTypeError(key))
    case Some(t) =>
      JoinSplit(t, ',', ' ');
      Ok(Join(Split(t, ','), " "))
  }

  /** What calling `split` on a non-string parameter throws. */
  function SplitTypeError(key: string): (e: ErrorValue)
    ensures e.name == "TypeError" && !e.operational
  {
    ForeignError("TypeError", key + ".split is not a function")
  }

  function SortSpec(q: map<string, QueryValue>): Result<string>
  {
    ListParam(q, "sort", "createdAt")
  }

  function Projection(q: map<string, QueryValue>): Result<string>
  {
    ListParam(q, "field", "-__v")
  }

  /** Without a parameter the sort is by creation time and the projection
      hides the version key. */
  lemma ListDefaults(q: map<string, QueryValue>)
    ensures !Truthy(q, "sort") ==> SortSpec(q) == Ok("createdAt")
    ensures !Truthy(q, "field") ==> Projection(q) == Ok("-__v")
  {
    if !Truthy(q, "sort") {
      ReplaceCharAbsent("createdAt", ',', ' ');
    }
    if !Truthy(q, "field") {
      ReplaceCharAbsent("-__v", ',', ' ');
    }
  }

  /** `parseInt(param)` when truthy, else the default. */
  function NumberParam(q: map<string, QueryValue>, key: string, default: int): JsNum
  {
    if Truthy(q, key) then ParseInt(JsString(q[key])) else Num(default)
  }

  function PageOf(q: map<string, QueryValue>): JsNum { NumberParam(q, "page", 1) }

  function LimitOf(q: map<string, QueryValue>): JsNum { NumberParam(q, "limit", 100) }

  /** `limit * (page - 1)`, NaN as soon as either is. */
  function SkipOf(q: map<string, QueryValue>): (r: JsNum)
    ensures r.Num? <==> LimitOf(q).Num? && PageOf(q).Num?
  {
    Mul(LimitOf(q), Sub(PageOf(q), Num(1)))
  }

  /** A parameter holding an integer's decimal text parses to that integer. */
  lemma DecimalParam(q: map<string, QueryValue>, key: string, default: int, n: int)
    requires key in q && q[key] == QStr(DecimalText(n))
    ensures NumberParam(q, key, default) == Num(n)
  {
    ParseIntDecimalText(n);
  }

  lemma DecimalParams(q: map<string, QueryValue>, page: int, limit: int)
    requires "page" in q && q["page"] == QStr(DecimalText(page))
    requires "limit" in q && q["limit"] == QStr(DecimalText(limit))
    ensures PageOf(q) == Num(page) && LimitOf(q) == Num(limit)
  {
    DecimalParam(q, "page", 1, page);
    DecimalParam(q, "limit", 100, limit);
  }

  /** The skip of a numeric window. */
  lemma SkipWindow(q: map<string, QueryValue>, page: int, limit: int)
    requires PageOf(q) == Num(page) && LimitOf(q) == Num(limit)
    ensures SkipOf(q) == Num(limit * (page - 1))
    ensures page == 0 ==> SkipOf(q) == Num(-limit)
  {
  }

  /** A string starting with a letter has no leading digits. */
  lemma LetterParsesNaN(s: string)
    requires s != [] && 'a' <= s[0] <= 'z'
    ensures ParseInt(s) == NaN
  {
    assert TrimStart(s) == s;
    assert DigitPrefix(s, 10) == [];
  }

  /** A truthy string parameter is parsed as it is. */
  lemma TextParam(q: map<string, QueryValue>, key: string, default: int, s: string)
    requires key in q && q[key] == QStr(s) && s != []
    ensures NumberParam(q, key, default) == ParseInt(s)
  {
  }

  /** With neither parameter: the first 100 documents. */
  lemma DefaultWindow(q: map<string, QueryValue>)
    requires !Truthy(q, "page") && !Truthy(q, "limit")
    ensures LimitOf(q) == Num(100) && SkipOf(q) == Num(0)
  {
  }

  /** For decimal parameters the window is exactly limit and
      limit * (page - 1), with no bound checked on either: page "0" skips
      -limit documents and a negative limit is passed on as it is. */
  lemma DecimalWindow(q: map<string, QueryValue>, page: int, limit: int)
    requires "page" in q && q["page"] == QStr(DecimalText(page))
    requires "limit" in q && q["limit"] == QStr(DecimalText(limit))
    ensures PageOf(q) == Num(page) && LimitOf(q) == Num(limit)
    ensures SkipOf(q) == Num(limit * (page - 1))
    ensures page == 0 ==> SkipOf(q) == Num(-limit)
  {
    DecimalParams(q, page, limit);
    SkipWindow(q, page, limit);
  }

  /** A page that starts with a letter is NaN, and so is the skip. */
  lemma NonNumericPage(q: map<string, QueryValue>, s: string)
    requires "page" in q && q["page"] == QStr(s)
    requires s != [] && 'a' <= s[0] <= 'z'
    ensures PageOf(q) == NaN && SkipOf(q) == NaN
  {
    LetterParsesNaN(s);
    assert PageOf(q) == NaN;
  }

  // ---------------------------------------------------------------------
  // The builder object
  // ---------------------------------------------------------------------

  /** The query being built, as the database will receive it. */
  datatype QueryDesc = QueryDesc(
    conditions: map<string, QueryValue>,
    sort: Option<string>,
    select: Option<string>,
    limit: Option<JsNum>,
    skip: Option<JsNum>)

  class Features {
    var query: QueryDesc
    const queryStr: map<string, QueryValue>

    constructor (query: QueryDesc, queryString: map<string, QueryValue>)
      ensures this.query == query && queryStr == queryString
    {
      this.query := query;
      queryStr := queryString;
    }

    /** Copies the parameters, deletes the four builder parameters one by one
        from the copy, rewrites it and adds it to the conditions. The
        parameters themselves keep all their keys. */
    method Filter()
      modifies this
      ensures query == old(query).(conditions := old(query).conditions + FilterConditions(queryStr))
    {
      var queryObj := queryStr;
      for i := 0 to |ExcludeFields|
        invariant queryObj == queryStr - (set j | 0 <= j < i :: ExcludeFields[j])
      {
        queryObj := queryObj - {ExcludeFields[i]};
      }
      assert (set j | 0 <= j < |ExcludeFields| :: ExcludeFields[j]) == Reserved() by {
        assert ExcludeFields[0] == "page" && ExcludeFields[1] == "sort";
        assert ExcludeFields[2] == "limit" && ExcludeFields[3] == "field";
      }
      query := query.(conditions := query.conditions + RewriteObject(queryObj));
    }

    /** Sets the sort spec, or reports the error its computation throws. */
    method Sort() returns (err: Option<ErrorValue>)
      modifies this
      ensures SortSpec(queryStr).Ok? ==> err.None? && query == old(query).(sort := Some(SortSpec(queryStr).value))
      ensures SortSpec(queryStr).Err? ==> err == Some(SortSpec(queryStr).err) && query == old(query)
    {
      var sort: string;
      if !Truthy(queryStr, "sort") {
        sort := "createdAt";
      } else if queryStr["sort"].QStr? {
        sort := queryStr["sort"].s;
      } else {
        return Some(SplitTypeError("sort"));
      }
      var sortBy := Join(Split(sort, ','), " ");
      query := query.(sort := Some(sortBy));
      err := None;
    }

    /** Sets the projection, or reports the error its computation throws. */
    method Fields() returns (err: Option<ErrorValue>)
      modifies this
      ensures Projection(queryStr).Ok? ==> err.None? && query == old(query).(select := Some(Projection(queryStr).value))
      ensures Projection(queryStr).Err? ==> err == Some(Projection(queryStr).err) && query == old(query)
    {
      var field: string;
      if !Truthy(queryStr, "field") {
        field := "-__v";
      } else if queryStr["field"].QStr? {
        field := queryStr["field"].s;
      } else {
        return Some(SplitTypeError("field"));
      }
      var selectFields := Join(Split(field, ','), " ");
      query := query.(select := Some(selectFields));
      err := None;
    }

    method Pagination()
      modifies this
      ensures query == old(query).(limit := Some(LimitOf(queryStr)), skip := Some(SkipOf(queryStr)))
    {
      var page := if Truthy(queryStr, "page") then ParseInt(JsString(queryStr["page"])) else Num(1);
      var limit := if Truthy(queryStr, "limit") then ParseInt(JsString(queryStr["limit"])) else Num(100);
      var skip := Mul(limit, Sub(page, Num(1)));
      query := query.(limit := Some(limit), skip := Some(skip));
    }
  }

  /** The whole list query of a listing handler: filter, sort, fields and
      pagination chained on one builder; the first stage that throws ends
      the chain. */
  method ListQuery(base: QueryDesc, q: map<string, QueryValue>) returns (r: Result<QueryDesc>)
    ensures SortSpec(q).Err? ==> r == Err(SortSpec(q).err)
    ensures SortSpec(q).Ok? && Projection(q).Err? ==> r == Err(Projection(q).err)
    ensures SortSpec(q).Ok? && Projection(q).Ok? ==>
              r == Ok(QueryDesc(base.conditions + FilterConditions(q), Some(SortSpec(q).value),
                                Some(Projection(q).value), Some(LimitOf(q)), Some(SkipOf(q))))
  {
    var feature := new Features(base, q);
    feature.Filter();
    var err := feature.Sort();
    if err.Some? {
      return Err(err.value);
    }
    err := feature.Fields();
    if err.Some? {
      return Err(err.value);
    }
    feature.Pagination();
    r := Ok(feature.query);
  }
}
