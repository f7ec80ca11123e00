/**
 * The query-parameter helpers of the API (api/utils/helpers.js): key-set
 * operations on objects, the type predicates, and `getFilterObj`, which turns
 * the parameters of a request into a database filter by rewriting operator
 * words into `$`-operators on the JSON text of the parameters.
 */
module Helpers {
  import opened JsValues

  // ---------------------------------------------------------------------------
  // omitKeyValuePairs, filterObject
  // ---------------------------------------------------------------------------

  /** A copy of `obj` without the fields to omit; a fresh copy per step of the fold. */
  function OmitKeyValuePairs(obj: map<string, Value>, fieldsToOmit: seq<string>): (r: map<string, Value>)
    ensures r.Keys == obj.Keys - Elements(fieldsToOmit)
    ensures forall k | k in r :: r[k] == obj[k]
    decreases |fieldsToOmit|
  {
    if fieldsToOmit == [] then obj
    else
      assert Elements(fieldsToOmit) == {fieldsToOmit[0]} + Elements(fieldsToOmit[1..]);
      OmitKeyValuePairs(obj - {fieldsToOmit[0]}, fieldsToOmit[1..])
  }

  /** Copies into a fresh object the entries of `obj` whose keys are allowed. */
  method FilterObject(obj: map<string, Value>, allowedFields: seq<string>) returns (newObj: map<string, Value>)
    ensures newObj.Keys == obj.Keys * Elements(allowedFields)
    ensures forall k | k in newObj :: newObj[k] == obj[k]
  {
    newObj := map[];
    var keys := obj.Keys;
    while keys != {}
      invariant keys <= obj.Keys
      invariant newObj.Keys == (obj.Keys - keys) * Elements(allowedFields)
      invariant forall k | k in newObj :: newObj[k] == obj[k]
      decreases keys
    {
      var el :| el in keys;
      if el in allowedFields {
        newObj := newObj[el := obj[el]];
      }
      keys := keys - {el};
    }
  }

  /** The entries kept by `filterObject` and those kept by `omitKeyValuePairs` split the object. */
  lemma {:induction false} OmitComplementsFilter(obj: map<string, Value>, fields: seq<string>, kept: map<string, Value>)
    requires kept.Keys == obj.Keys * Elements(fields)
    requires forall k | k in kept :: kept[k] == obj[k]
    ensures kept + OmitKeyValuePairs(obj, fields) == obj
    ensures kept.Keys !! OmitKeyValuePairs(obj, fields).Keys
  {
    var omitted := OmitKeyValuePairs(obj, fields);
    assert (kept + omitted).Keys == obj.Keys;
  }

  // ---------------------------------------------------------------------------
  // Type predicates
  // ---------------------------------------------------------------------------

  /** `typeof v === 'number' && isFinite(v)`: NaN is a number but not a finite one. */
  predicate IsNumber(v: Value) {
    v.Num?
  }

  /** A plain object: truthy, of type 'object' and built by `Object` (not an array or a RegExp). */
  predicate IsObject(v: Value) {
    v.Obj?
  }

  /** The strings read here as integers: the empty string, or one optional sign followed by at least one decimal digit. */
  predicate IsIntegerNumeral(s: string) {
    var digits := if |s| > 0 && (s[0] == '+' || s[0] == '-') then s[1..] else s;
    s == "" || (digits != "" && AllDigits(digits))
  }

  /**
   * A string is never a number; converting a number leaves it alone, every
   * integer numeral converts to the number it writes, and `v * 1` of a
   * string is a finite number exactly when the string is an integer numeral.
   */
  lemma {:induction false} NumbersConvert(v: Value, n: int, s: string)
    ensures !IsNumber(Str(s)) && !IsNumber(NaN)
    ensures IsNumber(v) ==> ToNumber(v) == v
    ensures IsNumber(ToNumber(Str(IntToString(n)))) && ToNumber(Str(IntToString(n))) == Num(n)
    ensures IsNumber(ToNumber(Str(s))) <==> IsIntegerNumeral(s)
  {
    NumberOfIntToString(n);
    if s != "" && (s[0] == '+' || s[0] == '-') {
      assert !AllDigits(s) by { assert !IsDigit(s[0]); }
    }
  }

  // ---------------------------------------------------------------------------
  // The operator-word rewrite: queryStr.replace(/\b(gte|gt|...|inregex)\b/g, '$$&')
  // ---------------------------------------------------------------------------

  /** The characters `\w` matches. */
  predicate IsWordChar(c: char) {
    'a' <= c <= 'z' || 'A' <= c <= 'Z' || '0' <= c <= '9' || c == '_'
  }

  const OperatorWords: set<string> := {"gte", "gt", "lte", "lt", "all", "in", "regex", "allregex", "inregex"}

  /** One of the alternatives of the regular expression. */
  predicate IsOperatorWord(w: string) {
    w in OperatorWords
  }

  /** The length of the run of word characters at the head of `s`. */
  function WordRun(s: string): (n: nat)
    ensures n <= |s|
    ensures n < |s| ==> !IsWordChar(s[n])
    decreases |s|
  {
    if s == [] || !IsWordChar(s[0]) then 0 else 1 + WordRun(s[1..])
  }

  /** Every character of the run is a word character. */
  lemma {:induction false} WordRunWord(s: string)
    ensures forall i | 0 <= i < WordRun(s) :: IsWordChar(s[i])
    decreases |s|
  {
    if s != [] && IsWordChar(s[0]) {
      WordRunWord(s[1..]);
      assert forall i | 1 <= i < WordRun(s) :: s[i] == s[1..][i - 1];
    }
  }

  /**
   * The replacement, scanning from a word boundary, for a test `isOp` of
   * whole words: each maximal run of word characters that passes the test
   * gets a `$` in front; every other character is copied. The structural
   * lemmas below hold whatever the test is; `RewriteWords` is the rewrite
   * with the operator words.
   */
  function RewriteWordsBy(s: string, isOp: string -> bool): string
    decreases |s|
  {
    if s == [] then []
    else if !IsWordChar(s[0]) then [s[0]] + RewriteWordsBy(s[1..], isOp)
    else
      var n := WordRun(s);
      RewrittenWord(s[..n], isOp) + RewriteWordsBy(s[n..], isOp)
  }

  /** A whole word after the replacement. */
  function RewrittenWord(w: string, isOp: string -> bool): string {
    if isOp(w) then "$" + w else w
  }

  /**
   * The rewrite the code performs. An alternative of the regular expression
   * matches only where a whole run equals it, because `\b` is required on
   * both sides.
   */
  function RewriteWords(s: string): string {
    RewriteWordsBy(s, IsOperatorWord)
  }

  /** The run at the head of `s` is a non-empty word that passes the test. */
  predicate OperatorAt(s: string, isOp: string -> bool) {
    WordRun(s) > 0 && isOp(s[..WordRun(s)])
  }

  /** The inverse of the rewrite: drops the `$` in front of every word that passes the test. */
  function RestoreWordsBy(s: string, isOp: string -> bool): string
    decreases |s|
  {
    if s == [] then []
    else if s[0] == '$' && OperatorAt(s[1..], isOp) then
      var n := WordRun(s[1..]);
      s[1..n + 1] + RestoreWordsBy(s[n + 1..], isOp)
    else if !IsWordChar(s[0]) then [s[0]] + RestoreWordsBy(s[1..], isOp)
    else
      var n := WordRun(s);
      s[..n] + RestoreWordsBy(s[n..], isOp)
  }

  function RestoreWords(s: string): string {
    RestoreWordsBy(s, IsOperatorWord)
  }

  lemma {:induction false} WordRunUnique(s: string, n: nat)
    requires n <= |s|
    requires forall i | 0 <= i < n :: IsWordChar(s[i])
    requires n < |s| ==> !IsWordChar(s[n])
    ensures WordRun(s) == n
  {
    WordRunWord(s);
  }

  lemma {:induction false} WordRunAppend(x: string, y: string)
    ensures WordRun(x + y) == if WordRun(x) < |x| then WordRun(x) else |x| + WordRun(y)
  {
    var n := if WordRun(x) < |x| then WordRun(x) else |x| + WordRun(y);
    var s := x + y;
    WordRunWord(x);
    WordRunWord(y);
    assert forall i | 0 <= i < n :: IsWordChar(s[i]) by {
      forall i | 0 <= i < n ensures IsWordChar(s[i]) {
        if i >= |x| { assert s[i] == y[i - |x|]; }
      }
    }
    if n < |s| {
      if WordRun(x) >= |x| { assert s[n] == y[WordRun(y)]; }
    }
    WordRunUnique(s, n);
  }

  /** What the rewrite does at the head of its input, and that its output never starts with a bare marked word. */
  lemma {:induction false} RewriteShape(x: string, isOp: string -> bool)
    ensures x == [] ==> RewriteWordsBy(x, isOp) == []
    ensures x != [] && !IsWordChar(x[0]) ==> RewriteWordsBy(x, isOp) != [] && RewriteWordsBy(x, isOp)[0] == x[0]
    ensures !OperatorAt(RewriteWordsBy(x, isOp), isOp)
    decreases |x|
  {
    var r := RewriteWordsBy(x, isOp);
    if x == [] {
    } else if !IsWordChar(x[0]) {
      assert WordRun(r) == 0;
    } else {
      var n := WordRun(x);
      var w := x[..n];
      var rest := x[n..];
      var t := RewriteWordsBy(rest, isOp);
      RewriteShape(rest, isOp);
      WordRunWord(x);
      if isOp(w) {
        assert r == "$" + w + t;
        assert WordRun(r) == 0;
      } else {
        assert r == w + t;
        WordRunUnique(w, |w|);
        WordRunAppend(w, t);
        assert r[..WordRun(r)] == w;
      }
    }
  }

  /** A non-word character that does not open a `$`-marked word is copied by the restoration. */
  lemma {:induction false} RestoreNonWordHead(c: char, t: string, isOp: string -> bool)
    requires !IsWordChar(c)
    requires !OperatorAt(t, isOp)
    ensures RestoreWordsBy([c] + t, isOp) == [c] + RestoreWordsBy(t, isOp)
  {
    var u := [c] + t;
    assert u[0] == c && u[1..] == t;
  }

  lemma {:induction false} RestoreOperatorWord(w: string, t: string, isOp: string -> bool)
    requires w != [] && forall i | 0 <= i < |w| :: IsWordChar(w[i])
    requires isOp(w)
    requires t == [] || !IsWordChar(t[0])
    ensures RestoreWordsBy("$" + w + t, isOp) == w + RestoreWordsBy(t, isOp)
  {
    WordRunUnique(w, |w|);
    WordRunAppend(w, t);
    var u := "$" + w + t;
    assert u[0] == '$';
    assert u[1..] == w + t;
    assert (w + t)[..|w|] == w;
    assert OperatorAt(u[1..], isOp);
    assert u[1..|w| + 1] == w && u[|w| + 1..] == t;
  }

  lemma {:induction false} RestorePlainWord(w: string, t: string, isOp: string -> bool)
    requires w != [] && forall i | 0 <= i < |w| :: IsWordChar(w[i])
    requires !isOp(w)
    requires t == [] || !IsWordChar(t[0])
    ensures RestoreWordsBy(w + t, isOp) == w + RestoreWordsBy(t, isOp)
  {
    WordRunUnique(w, |w|);
    WordRunAppend(w, t);
    var u := w + t;
    assert u[0] == w[0];
    assert u[..|w|] == w && u[|w|..] == t;
  }

  /** Restoring a rewritten text gives the original text back, whatever words are marked. */
  lemma {:induction false} RestoreRewriteBy(s: string, isOp: string -> bool)
    ensures RestoreWordsBy(RewriteWordsBy(s, isOp), isOp) == s
    decreases |s|
  {
    if s == [] {
    } else if !IsWordChar(s[0]) {
      RestoreRewriteBy(s[1..], isOp);
      RestoreAtNonWord(s, isOp);
    } else {
      RestoreRewriteBy(s[WordRun(s)..], isOp);
      RestoreAtWord(s, isOp);
    }
  }

  /** The step of the restoration for a text that starts with a non-word character. */
  lemma {:induction false} RestoreAtNonWord(s: string, isOp: string -> bool)
    requires s != [] && !IsWordChar(s[0])
    requires RestoreWordsBy(RewriteWordsBy(s[1..], isOp), isOp) == s[1..]
    ensures RestoreWordsBy(RewriteWordsBy(s, isOp), isOp) == s
  {
    var t := RewriteWordsBy(s[1..], isOp);
    assert RewriteWordsBy(s, isOp) == [s[0]] + t;
    RewriteShape(s[1..], isOp);
    RestoreNonWordHead(s[0], t, isOp);
    assert s == [s[0]] + s[1..];
  }

  /** The step of the restoration for a text that starts with a word. */
  lemma {:induction false} RestoreAtWord(s: string, isOp: string -> bool)
    requires s != [] && IsWordChar(s[0])
    requires RestoreWordsBy(RewriteWordsBy(s[WordRun(s)..], isOp), isOp) == s[WordRun(s)..]
    ensures RestoreWordsBy(RewriteWordsBy(s, isOp), isOp) == s
  {
    RewriteWordStep(s, isOp);
    RestoreAfterWord(s, isOp);
    TakeDrop(s, WordRun(s));
  }

  /** Restoring the rewrite of the leading word of a text keeps that word in front of the restored rest. */
  lemma {:induction false} RestoreAfterWord(s: string, isOp: string -> bool)
    requires s != [] && IsWordChar(s[0])
    ensures RestoreWordsBy(RewrittenWord(s[..WordRun(s)], isOp) + RewriteWordsBy(s[WordRun(s)..], isOp), isOp)
            == s[..WordRun(s)] + RestoreWordsBy(RewriteWordsBy(s[WordRun(s)..], isOp), isOp)
  {
    var rest := s[WordRun(s)..];
    WordRunWord(s);
    RewriteShape(rest, isOp);
    RestoreWord(s[..WordRun(s)], RewriteWordsBy(rest, isOp), isOp);
  }

  lemma {:induction false} TakeDrop(s: string, n: nat)
    requires n <= |s|
    ensures s[..n] + s[n..] == s
  {
  }

  /** Restoring a rewritten whole word followed by a text that does not continue it. */
  lemma {:induction false} RestoreWord(w: string, t: string, isOp: string -> bool)
    requires w != [] && forall i | 0 <= i < |w| :: IsWordChar(w[i])
    requires t == [] || !IsWordChar(t[0])
    ensures RestoreWordsBy(RewrittenWord(w, isOp) + t, isOp) == w + RestoreWordsBy(t, isOp)
  {
    if isOp(w) {
      RestoreOperatorWord(w, t, isOp);
    } else {
      RestorePlainWord(w, t, isOp);
    }
  }

  /** Restoring the rewrite of the code gives the original text back. */
  lemma {:induction false} RestoreRewrite(s: string)
    ensures RestoreWords(RewriteWords(s)) == s
  {
    RestoreRewriteBy(s, IsOperatorWord);
  }

  lemma {:induction false} SeqAssoc(x: string, y: string, z: string)
    ensures x + (y + z) == (x + y) + z
  {
  }

  /** The rewrite never maps two different texts to the same text. */
  lemma {:induction false} RewriteWordsInjective()
    ensures forall s1, s2 {:trigger RewriteWords(s1), RewriteWords(s2)} ::
              RewriteWords(s1) == RewriteWords(s2) ==> s1 == s2
  {
    forall s1, s2 | RewriteWords(s1) == RewriteWords(s2) ensures s1 == s2 {
      RestoreRewrite(s1);
      RestoreRewrite(s2);
    }
  }

  /** A character that is not a word character splits the rewrite, whatever words are marked. */
  lemma {:induction false} RewriteSplitsBy(a: string, c: char, b: string, isOp: string -> bool)
    requires !IsWordChar(c)
    ensures RewriteWordsBy(a + [c] + b, isOp) == RewriteWordsBy(a, isOp) + [c] + RewriteWordsBy(b, isOp)
    decreases |a|
  {
    if a == [] {
      assert a + [c] + b == [c] + b && ([c] + b)[1..] == b;
    } else if !IsWordChar(a[0]) {
      RewriteSplitsBy(a[1..], c, b, isOp);
      SplitAfterNonWord(a, c, b, isOp);
    } else {
      RewriteSplitsBy(a[WordRun(a)..], c, b, isOp);
      SplitAfterWord(a, c, b, isOp);
    }
  }

  /**
   * A character that is not a word character splits the rewrite: the JSON
   * text of an object rewrites key by key and string by string, because
   * quotes, colons, commas and brackets separate them.
   */
  lemma {:induction false} RewriteSplitsAtSeparator(a: string, c: char, b: string)
    requires !IsWordChar(c)
    ensures RewriteWords(a + [c] + b) == RewriteWords(a) + [c] + RewriteWords(b)
  {
    RewriteSplitsBy(a, c, b, IsOperatorWord);
  }

  /** The step of the splitting lemma for a text that starts with a non-word character. */
  lemma {:induction false} SplitAfterNonWord(a: string, c: char, b: string, isOp: string -> bool)
    requires a != [] && !IsWordChar(a[0])
    requires RewriteWordsBy(a[1..] + [c] + b, isOp) == RewriteWordsBy(a[1..], isOp) + [c] + RewriteWordsBy(b, isOp)
    ensures RewriteWordsBy(a + [c] + b, isOp) == RewriteWordsBy(a, isOp) + [c] + RewriteWordsBy(b, isOp)
  {
    HeadBeforeSeparator(a, c, b);
    RewriteNonWordStep(a + [c] + b, isOp);
    RewriteNonWordStep(a, isOp);
    Regroup([a[0]], RewriteWordsBy(a[1..], isOp), c, RewriteWordsBy(b, isOp));
  }

  lemma {:induction false} HeadBeforeSeparator(a: string, c: char, b: string)
    requires a != []
    ensures (a + [c] + b)[0] == a[0] && (a + [c] + b)[1..] == a[1..] + [c] + b
  {
  }

  /** One step of the rewrite at a text that starts with a non-word character. */
  lemma {:induction false} RewriteNonWordStep(s: string, isOp: string -> bool)
    requires s != [] && !IsWordChar(s[0])
    ensures RewriteWordsBy(s, isOp) == [s[0]] + RewriteWordsBy(s[1..], isOp)
  {
  }

  /** Cutting a concatenation inside its first part. */
  lemma {:induction false} SliceAppend(x: string, y: string, n: nat)
    requires n <= |x|
    ensures (x + y)[..n] == x[..n] && (x + y)[n..] == x[n..] + y
  {
  }

  /** One step of the rewrite at a text that starts with a word. */
  lemma {:induction false} RewriteWordStep(s: string, isOp: string -> bool)
    requires s != [] && IsWordChar(s[0])
    ensures RewriteWordsBy(s, isOp) == RewrittenWord(s[..WordRun(s)], isOp) + RewriteWordsBy(s[WordRun(s)..], isOp)
  {
  }

  /** The step of the splitting lemma for a text that starts with a word. */
  lemma {:induction false} SplitAfterWord(a: string, c: char, b: string, isOp: string -> bool)
    requires a != [] && IsWordChar(a[0]) && !IsWordChar(c)
    requires RewriteWordsBy(a[WordRun(a)..] + [c] + b, isOp)
               == RewriteWordsBy(a[WordRun(a)..], isOp) + [c] + RewriteWordsBy(b, isOp)
    ensures RewriteWordsBy(a + [c] + b, isOp) == RewriteWordsBy(a, isOp) + [c] + RewriteWordsBy(b, isOp)
  {
    WordBeforeSeparator(a, c, b);
    RewriteWordStep(a + [c] + b, isOp);
    RewriteWordStep(a, isOp);
    Regroup(RewrittenWord(a[..WordRun(a)], isOp), RewriteWordsBy(a[WordRun(a)..], isOp), c, RewriteWordsBy(b, isOp));
  }

  /** A separator after a text does not extend the word at its head. */
  lemma {:induction false} WordBeforeSeparator(a: string, c: char, b: string)
    requires !IsWordChar(c)
    ensures WordRun(a + [c] + b) == WordRun(a)
    ensures (a + [c] + b)[..WordRun(a)] == a[..WordRun(a)]
    ensures (a + [c] + b)[WordRun(a)..] == a[WordRun(a)..] + [c] + b
  {
    var u := [c] + b;
    SeqAssoc(a, [c], b);
    WordRunAppend(a, u);
    assert WordRun(u) == 0;
    SliceAppend(a, u, WordRun(a));
    SeqAssoc(a[WordRun(a)..], [c], b);
  }

  lemma {:induction false} Regroup(w: string, x: string, c: char, y: string)
    ensures w + ((x + [c]) + y) == ((w + x) + [c]) + y
  {
    SeqAssoc(w, x + [c], y);
    SeqAssoc(w, x, [c]);
  }

  /** A text made of non-word characters only is copied unchanged in front of the rest. */
  lemma {:induction false} RewriteNonWordPrefix(p: string, t: string, isOp: string -> bool)
    requires forall i | 0 <= i < |p| :: !IsWordChar(p[i])
    ensures RewriteWordsBy(p + t, isOp) == p + RewriteWordsBy(t, isOp)
    decreases |p|
  {
    if p != [] {
      var s := p + t;
      assert s != [] && s[0] == p[0] && !IsWordChar(s[0]);
      assert s[1..] == p[1..] + t;
      calc {
        RewriteWordsBy(s, isOp);
        [p[0]] + RewriteWordsBy(p[1..] + t, isOp);
        { RewriteNonWordPrefix(p[1..], t, isOp); }
        [p[0]] + (p[1..] + RewriteWordsBy(t, isOp));
        { assert p == [p[0]] + p[1..]; }
        p + RewriteWordsBy(t, isOp);
      }
    } else {
      assert p + t == t;
    }
  }

  /** A whole word (a maximal run of word characters) is marked exactly when it passes the test. */
  lemma {:induction false} WholeWordRewrite(w: string, t: string, isOp: string -> bool)
    requires w != [] && forall i | 0 <= i < |w| :: IsWordChar(w[i])
    requires t == [] || !IsWordChar(t[0])
    ensures RewriteWordsBy(w + t, isOp) == RewrittenWord(w, isOp) + RewriteWordsBy(t, isOp)
  {
    var s := w + t;
    assert WordRun(w) == |w|;
    WordRunAppend(w, t);
    assert s[0] == w[0];
    assert s[..|w|] == w && s[|w|..] == t;
  }

  // JSON string escaping of quotes and backslashes

  function EscapeChar(c: char): string {
    if c == '"' then "\\\"" else if c == '\\' then "\\\\" else [c]
  }

  /** How JSON.stringify writes a string without control characters between its quotes. */
  function EscapeJson(s: string): string
    decreases |s|
  {
    if s == [] then [] else EscapeChar(s[0]) + EscapeJson(s[1..])
  }

  lemma {:induction false} EscapeAppend(x: string, y: string)
    ensures EscapeJson(x + y) == EscapeJson(x) + EscapeJson(y)
    decreases |x|
  {
    if x != [] {
      var s := x + y;
      assert s != [] && s[0] == x[0];
      assert s[1..] == x[1..] + y;
      calc {
        EscapeJson(s);
        EscapeChar(x[0]) + EscapeJson(x[1..] + y);
        { EscapeAppend(x[1..], y); }
        EscapeChar(x[0]) + (EscapeJson(x[1..]) + EscapeJson(y));
        EscapeJson(x) + EscapeJson(y);
      }
    } else {
      assert x + y == y;
    }
  }

  lemma {:induction false} EscapeKeepsWords(w: string)
    requires forall i | 0 <= i < |w| :: IsWordChar(w[i]) || w[i] == '$'
    ensures EscapeJson(w) == w
    decreases |w|
  {
    if w != [] {
      EscapeKeepsWords(w[1..]);
      assert w == [w[0]] + w[1..];
    }
  }

  /** Escaping a non-empty text escapes its first character, then the rest. */
  lemma {:induction false} EscapeStep(s: string)
    requires s != []
    ensures EscapeJson(s) == EscapeChar(s[0]) + EscapeJson(s[1..])
    ensures EscapeJson([s[0]]) == EscapeChar(s[0])
  {
    assert [s[0]][1..] == [];
  }

  /** The step of the commutation for a text that starts with a non-word character. */
  lemma {:induction false} CommuteAtNonWord(s: string, isOp: string -> bool)
    requires s != [] && !IsWordChar(s[0])
    requires RewriteWordsBy(EscapeJson(s[1..]), isOp) == EscapeJson(RewriteWordsBy(s[1..], isOp))
    ensures RewriteWordsBy(EscapeJson(s), isOp) == EscapeJson(RewriteWordsBy(s, isOp))
  {
    var e := EscapeChar(s[0]);
    var r := RewriteWordsBy(s[1..], isOp);
    EscapeStep(s);
    assert RewriteWordsBy(s, isOp) == [s[0]] + r;
    calc {
      RewriteWordsBy(EscapeJson(s), isOp);
      RewriteWordsBy(e + EscapeJson(s[1..]), isOp);
      { RewriteNonWordPrefix(e, EscapeJson(s[1..]), isOp); }
      e + RewriteWordsBy(EscapeJson(s[1..]), isOp);
      e + EscapeJson(r);
      { EscapeAppend([s[0]], r); }
      EscapeJson([s[0]] + r);
    }
  }

  /** Escaping keeps a leading word and leaves a text that does not start with a word character. */
  lemma {:induction false} EscapeAtWord(s: string)
    ensures EscapeJson(s) == s[..WordRun(s)] + EscapeJson(s[WordRun(s)..])
    ensures EscapeJson(s[WordRun(s)..]) == [] || !IsWordChar(EscapeJson(s[WordRun(s)..])[0])
  {
    TakeDrop(s, WordRun(s));
    EscapeAppend(s[..WordRun(s)], s[WordRun(s)..]);
    LeadingWordEscapes(s);
    if s[WordRun(s)..] != [] {
      EscapeNonWordHead(s[WordRun(s)..]);
    }
  }

  lemma {:induction false} LeadingWordEscapes(s: string)
    ensures EscapeJson(s[..WordRun(s)]) == s[..WordRun(s)]
  {
    WordRunWord(s);
    EscapeKeepsWords(s[..WordRun(s)]);
  }

  /** Escaping a text that starts with a non-word character gives one that starts with a non-word character. */
  lemma {:induction false} EscapeNonWordHead(t: string)
    requires t != [] && !IsWordChar(t[0])
    ensures EscapeJson(t) != [] && !IsWordChar(EscapeJson(t)[0])
  {
    EscapeStep(t);
  }

  /** The rewrite of an escaped text that starts with a word treats that word first. */
  lemma {:induction false} RewriteEscapedWord(s: string, isOp: string -> bool)
    requires s != [] && IsWordChar(s[0])
    ensures RewriteWordsBy(EscapeJson(s), isOp)
            == RewrittenWord(s[..WordRun(s)], isOp) + RewriteWordsBy(EscapeJson(s[WordRun(s)..]), isOp)
  {
    EscapeAtWord(s);
    WordRunWord(s);
    WholeWordRewrite(s[..WordRun(s)], EscapeJson(s[WordRun(s)..]), isOp);
  }

  /** A rewritten word is made of word characters and `$`, which escaping leaves alone. */
  lemma {:induction false} RewrittenWordEscapes(w: string, isOp: string -> bool)
    requires forall i | 0 <= i < |w| :: IsWordChar(w[i])
    ensures EscapeJson(RewrittenWord(w, isOp)) == RewrittenWord(w, isOp)
  {
    EscapeKeepsWords(RewrittenWord(w, isOp));
  }

  /** The step of the commutation for a text that starts with a word. */
  lemma {:induction false} CommuteAtWord(s: string, isOp: string -> bool)
    requires s != [] && IsWordChar(s[0])
    requires RewriteWordsBy(EscapeJson(s[WordRun(s)..]), isOp) == EscapeJson(RewriteWordsBy(s[WordRun(s)..], isOp))
    ensures RewriteWordsBy(EscapeJson(s), isOp) == EscapeJson(RewriteWordsBy(s, isOp))
  {
    RewriteEscapedWord(s, isOp);
    WordRunWord(s);
    RewrittenWordEscapes(s[..WordRun(s)], isOp);
    EscapeAppend(RewrittenWord(s[..WordRun(s)], isOp), RewriteWordsBy(s[WordRun(s)..], isOp));
    RewriteWordStep(s, isOp);
  }

  /** Rewriting the escaped text of a string is escaping the rewritten string, whatever words are marked. */
  lemma {:induction false} CommutesWithEscapeBy(s: string, isOp: string -> bool)
    ensures RewriteWordsBy(EscapeJson(s), isOp) == EscapeJson(RewriteWordsBy(s, isOp))
    decreases |s|
  {
    if s == [] {
    } else if !IsWordChar(s[0]) {
      CommutesWithEscapeBy(s[1..], isOp);
      CommuteAtNonWord(s, isOp);
    } else {
      CommutesWithEscapeBy(s[WordRun(s)..], isOp);
      CommuteAtWord(s, isOp);
    }
  }

  /**
   * Rewriting the escaped text of a string is escaping the rewritten string:
   * the rewrite of a JSON string literal is the literal of the rewritten string.
   */
  lemma {:induction false} RewriteCommutesWithEscape(s: string)
    ensures RewriteWords(EscapeJson(s)) == EscapeJson(RewriteWords(s))
  {
    CommutesWithEscapeBy(s, IsOperatorWord);
  }

  // ---------------------------------------------------------------------------
  // JSON round trip of the parameters with the rewrite applied
  // ---------------------------------------------------------------------------

  /**
   * `JSON.parse` of the rewritten `JSON.stringify(v)`: keys and strings are
   * rewritten, NaN becomes null, a RegExp becomes `{}`, undefined members
   * disappear and undefined array items become null.
   */
  function RewriteValue(v: Value): Value
    decreases v, 1
  {
    match v
    case NaN => Null
    case Str(s) => Str(RewriteWords(s))
    case Arr(items) =>
      Arr(seq(|items|, i requires 0 <= i < |items| =>
                if items[i] == Undefined then Null else RewriteValue(items[i])))
    case Obj(m) => Obj(RewriteObject(m))
    case CIPattern(_) => Obj(map[])
    case RegexLiteral(_) => Obj(map[])
    case _ => v
  }

  function RewriteObject(m: map<string, Value>): map<string, Value>
    decreases Obj(m), 0
  {
    RewriteWordsInjective();
    map k | k in m && m[k] != Undefined :: RewriteWords(k) := RewriteValue(m[k])
  }

  // ---------------------------------------------------------------------------
  // getFilterObj
  // ---------------------------------------------------------------------------

  const ControlFields: seq<string> := ["page", "sort", "limit", "fields"]

  const ComparisonOps: seq<string> := ["$gte", "$gt", "$lte", "$lt"]

  /** The operator keys the conversion reads or writes. */
  const OperatorKeys: set<string> := {"$regex", "$gte", "$gt", "$lte", "$lt", "$allregex", "$inregex", "$all", "$in"}

  /** The source of `new RegExp(v, 'i')`: a RegExp keeps its own source, other values go through `String`. */
  function PatternSource(v: Value): string {
    match v
    case CIPattern(src) => src
    case RegexLiteral(src) => src
    case Undefined => "(?:)"
    case _ => JsString(v)
  }

  /** `[v].flat()`: the elements of an array, or the value alone. */
  function FlatItems(v: Value): seq<Value> {
    if v.Arr? then v.items else [v]
  }

  /** `[v].flat().map(c => new RegExp(c, 'i'))` when no pattern is rejected. */
  function PatternList(v: Value): seq<Value> {
    var elems := FlatItems(v);
    seq(|elems|, i requires 0 <= i < |elems| => CIPattern(PatternSource(elems[i])))
  }

  /**
   * `new RegExp(src, 'i')` throws a SyntaxError when the source is not a
   * pattern; `validPattern` stands for the engine's pattern grammar.
   */
  const InvalidPatternError: JsError := SyntaxError("Invalid regular expression")

  /** Every item is the source of a valid pattern. */
  predicate AllValid(items: seq<Value>, validPattern: string -> bool) {
    forall i | 0 <= i < |items| :: validPattern(PatternSource(items[i]))
  }

  /** `[v].flat().map(c => new RegExp(c, 'i'))`, throwing at an invalid source. */
  function CompilePatterns(v: Value, validPattern: string -> bool): Result<seq<Value>, JsError> {
    if AllValid(FlatItems(v), validPattern) then Success(PatternList(v)) else Failure(InvalidPatternError)
  }

  function RegexStep(m: map<string, Value>): map<string, Value> {
    if "$regex" in m && Truthy(m["$regex"]) then m["$regex" := CIPattern(PatternSource(m["$regex"]))] else m
  }

  function ConvertComparison(m: map<string, Value>, b: string): map<string, Value> {
    if b in m && Truthy(m[b]) then m[b := ToNumber(m[b])] else m
  }

  /** The `['$gte', '$gt', '$lte', '$lt'].forEach` loop, applied to a prefix of the list. */
  function ConvertComparisons(m: map<string, Value>, ops: seq<string>): map<string, Value>
    decreases |ops|
  {
    if ops == [] then m else ConvertComparison(ConvertComparisons(m, ops[..|ops| - 1]), ops[|ops| - 1])
  }

  /** Replaces the key `from` by `to`, holding the list of case-insensitive patterns of its value. */
  function ExpandPatterns(m: map<string, Value>, from: string, to: string, done: bool): map<string, Value> {
    if done && from in m then (m - {from})[to := Arr(PatternList(m[from]))] else m
  }

  /** What the body of the outer `forEach` does to one entry of the parsed filter. */
  function ConvertOperators(v: Value): Value {
    match v
    case Obj(m) =>
      var m2 := ConvertComparisons(RegexStep(m), ComparisonOps);
      Obj(ExpandPatterns(ExpandPatterns(m2, "$allregex", "$all", true), "$inregex", "$in", true))
    case _ => v
  }

  /** The fields removed before anything else. */
  function RemovedFields(excludedFilterFields: seq<string>): set<string> {
    Elements(ControlFields + excludedFilterFields)
  }

  /** Reading `.$regex` of a parsed entry that is null throws. */
  const NullEntryError: JsError := TypeError("Cannot read properties of null (reading '$regex')")

  /** Every pattern source the conversion of the entry hands to `new RegExp` is valid. */
  predicate EntryValid(v: Value, validPattern: string -> bool) {
    match v
    case Obj(m) =>
      && ("$regex" in m && Truthy(m["$regex"]) ==> validPattern(PatternSource(m["$regex"])))
      && ("$allregex" in m ==> AllValid(FlatItems(m["$allregex"]), validPattern))
      && ("$inregex" in m ==> AllValid(FlatItems(m["$inregex"]), validPattern))
    case _ => true
  }

  /** The body of the outer `forEach` on one entry that is not null: its conversion, or the SyntaxError. */
  function ConvertEntryValue(v: Value, validPattern: string -> bool): Result<Value, JsError> {
    if EntryValid(v, validPattern) then Success(ConvertOperators(v)) else Failure(InvalidPatternError)
  }

  predicate HasNullEntry(parsed: map<string, Value>) {
    exists a | a in parsed :: parsed[a] == Null
  }

  predicate HasInvalidPattern(parsed: map<string, Value>, validPattern: string -> bool) {
    exists a | a in parsed :: !EntryValid(parsed[a], validPattern)
  }

  /**
   * `e` is an exception the conversion can throw: which entry is reached
   * first depends on the key order, so a null entry and an invalid pattern
   * may each be the one reported.
   */
  predicate ConvertThrows(parsed: map<string, Value>, validPattern: string -> bool, e: JsError) {
    || (e == NullEntryError && HasNullEntry(parsed))
    || (e == InvalidPatternError && HasInvalidPattern(parsed, validPattern))
  }

  /** The conversion of every entry of the parsed filter; a null entry is reported before an invalid pattern. */
  function ConvertAll(parsed: map<string, Value>, validPattern: string -> bool): Result<map<string, Value>, JsError> {
    if HasNullEntry(parsed) then Failure(NullEntryError)
    else if HasInvalidPattern(parsed, validPattern) then Failure(InvalidPatternError)
    else Success(map a | a in parsed :: ConvertOperators(parsed[a]))
  }

  /** The value of `getFilterObj(queryObj, excludedFilterFields, isFilterObjPrepared)`. */
  function FilterObjSpec(queryObj: map<string, Value>, excludedFilterFields: seq<string>, isFilterObjPrepared: bool,
                         validPattern: string -> bool)
    : Result<map<string, Value>, JsError>
  {
    var base := queryObj - RemovedFields(excludedFilterFields);
    if isFilterObjPrepared then Success(base) else ConvertAll(RewriteObject(base), validPattern)
  }

  /** `e` is an exception `getFilterObj` can throw on these arguments. */
  predicate FilterObjThrows(queryObj: map<string, Value>, excludedFilterFields: seq<string>, isFilterObjPrepared: bool,
                            validPattern: string -> bool, e: JsError) {
    !isFilterObjPrepared
    && ConvertThrows(RewriteObject(queryObj - RemovedFields(excludedFilterFields)), validPattern, e)
  }

  /**
   * `getFilterObj` throws exactly when the parameters are converted and one
   * entry is null or holds an invalid pattern; the exception it reports is
   * one of those it can throw.
   */
  lemma {:induction false} FilterObjFailures(queryObj: map<string, Value>, excludedFilterFields: seq<string>,
                                             isFilterObjPrepared: bool, validPattern: string -> bool)
    ensures var parsed := RewriteObject(queryObj - RemovedFields(excludedFilterFields));
            FilterObjSpec(queryObj, excludedFilterFields, isFilterObjPrepared, validPattern).Failure?
            <==> !isFilterObjPrepared && (HasNullEntry(parsed) || HasInvalidPattern(parsed, validPattern))
    ensures var f := FilterObjSpec(queryObj, excludedFilterFields, isFilterObjPrepared, validPattern);
            f.Failure? ==> FilterObjThrows(queryObj, excludedFilterFields, isFilterObjPrepared, validPattern, f.error)
  {
  }

  /** The nested loops over one entry: `$regex`, then the comparisons, then the keys snapshot. */
  method ConvertEntry(v: Value, validPattern: string -> bool) returns (r: Result<Value, JsError>)
    ensures r == ConvertEntryValue(v, validPattern)
  {
    if !v.Obj? {
      return Success(v);
    }
    var m := v.fields;
    if "$regex" in m && Truthy(m["$regex"]) {
      if !validPattern(PatternSource(m["$regex"])) {
        return Failure(InvalidPatternError);
      }
      m := m["$regex" := CIPattern(PatternSource(m["$regex"]))];
    }
    ghost var m1 := m;
    for i := 0 to |ComparisonOps|
      invariant m == ConvertComparisons(m1, ComparisonOps[..i])
    {
      var b := ComparisonOps[i];
      assert ComparisonOps[..i + 1][..i] == ComparisonOps[..i];
      if b in m && Truthy(m[b]) {
        m := m[b := ToNumber(m[b])];
      }
    }
    assert ComparisonOps[..|ComparisonOps|] == ComparisonOps;
    ghost var m2 := m;
    PatternKeysUntouched(v.fields, m2);
    var keys := m.Keys;
    while keys != {}
      invariant keys <= m2.Keys
      invariant m == ExpandPatterns(ExpandPatterns(m2, "$allregex", "$all", "$allregex" !in keys),
                                    "$inregex", "$in", "$inregex" !in keys)
      invariant "$allregex" in m2 && "$allregex" !in keys ==> AllValid(FlatItems(m2["$allregex"]), validPattern)
      invariant "$inregex" in m2 && "$inregex" !in keys ==> AllValid(FlatItems(m2["$inregex"]), validPattern)
      decreases keys
    {
      var b :| b in keys;
      if b == "$allregex" {
        ExpandAllStep(m2, "$inregex" !in keys);
        var patterns := CompilePatterns(m[b], validPattern);
        if patterns.Failure? {
          return Failure(patterns.error);
        }
        m := m["$all" := Arr(patterns.value)] - {b};
      }
      if b == "$inregex" {
        ExpandInStep(m2, "$allregex" !in keys);
        var patterns := CompilePatterns(m[b], validPattern);
        if patterns.Failure? {
          return Failure(patterns.error);
        }
        m := m["$in" := Arr(patterns.value)] - {b};
      }
      keys := keys - {b};
    }
    r := Success(Obj(m));
  }

  /** `$regex` and the comparisons leave the two pattern-list keys as they were. */
  lemma {:induction false} PatternKeysUntouched(m: map<string, Value>, m2: map<string, Value>)
    requires m2 == ConvertComparisons(RegexStep(m), ComparisonOps)
    ensures ("$allregex" in m2 <==> "$allregex" in m) && ("$allregex" in m ==> m2["$allregex"] == m["$allregex"])
    ensures ("$inregex" in m2 <==> "$inregex" in m) && ("$inregex" in m ==> m2["$inregex"] == m["$inregex"])
  {
    ConvertComparisonsEffect(RegexStep(m), ComparisonOps);
    assert "$allregex" !in ComparisonOps && "$inregex" !in ComparisonOps;
  }

  /** Handling `$allregex` in the keys loop, whether or not `$inregex` was handled before it. */
  lemma {:induction false} ExpandAllStep(m2: map<string, Value>, doneIn: bool)
    requires "$allregex" in m2
    ensures "$allregex" in ExpandPatterns(ExpandPatterns(m2, "$allregex", "$all", false), "$inregex", "$in", doneIn)
    ensures ExpandPatterns(ExpandPatterns(m2, "$allregex", "$all", false), "$inregex", "$in", doneIn)["$allregex"]
            == m2["$allregex"]
    ensures ExpandPatterns(ExpandPatterns(m2, "$allregex", "$all", false), "$inregex", "$in", doneIn)
              ["$all" := Arr(PatternList(m2["$allregex"]))] - {"$allregex"}
            == ExpandPatterns(ExpandPatterns(m2, "$allregex", "$all", true), "$inregex", "$in", doneIn)
  {
  }

  /** Handling `$inregex` in the keys loop, whether or not `$allregex` was handled before it. */
  lemma {:induction false} ExpandInStep(m2: map<string, Value>, doneAll: bool)
    requires "$inregex" in m2
    ensures "$inregex" in ExpandPatterns(m2, "$allregex", "$all", doneAll)
    ensures ExpandPatterns(m2, "$allregex", "$all", doneAll)["$inregex"] == m2["$inregex"]
    ensures ExpandPatterns(ExpandPatterns(m2, "$allregex", "$all", doneAll), "$inregex", "$in", false)
              ["$in" := Arr(PatternList(m2["$inregex"]))] - {"$inregex"}
            == ExpandPatterns(ExpandPatterns(m2, "$allregex", "$all", doneAll), "$inregex", "$in", true)
  {
  }

  /**
   * The outer `Object.keys(filterObj).forEach`, converting the entries in
   * place: it succeeds exactly when the specification does, with the same
   * object, and otherwise throws one of the exceptions the entries can raise.
   */
  method ConvertEntries(parsed: map<string, Value>, validPattern: string -> bool)
    returns (r: Result<map<string, Value>, JsError>)
    ensures ConvertAll(parsed, validPattern).Success? ==> r == ConvertAll(parsed, validPattern)
    ensures ConvertAll(parsed, validPattern).Failure? ==> r.Failure? && ConvertThrows(parsed, validPattern, r.error)
  {
    var filterObj := parsed;
    var keys := filterObj.Keys;
    ghost var target := map a | a in parsed :: ConvertOperators(parsed[a]);
    while keys != {}
      invariant keys <= parsed.Keys
      invariant ConvertedOutside(parsed, filterObj, target, keys, validPattern)
      decreases keys
    {
      var a :| a in keys;
      if filterObj[a] == Null {
        ConvertAllNull(parsed, validPattern, a);
        return Failure(NullEntryError);
      }
      var converted := ConvertEntry(filterObj[a], validPattern);
      if converted.Failure? {
        ConvertAllInvalid(parsed, validPattern, a);
        return Failure(converted.error);
      }
      assert converted.value == target[a];
      ConvertStep(parsed, filterObj, target, keys, a, validPattern);
      filterObj := filterObj[a := converted.value];
      keys := keys - {a};
    }
    ConvertAllSuccess(parsed, validPattern, filterObj, target);
    return Success(filterObj);
  }

  /** The loop invariant of the conversion: the entries outside `keys` are converted, were not null and held valid patterns. */
  ghost predicate ConvertedOutside(parsed: map<string, Value>, filterObj: map<string, Value>,
                                   target: map<string, Value>, keys: set<string>, validPattern: string -> bool) {
    && filterObj.Keys == parsed.Keys == target.Keys
    && (forall a | a in parsed :: filterObj[a] == if a in keys then parsed[a] else target[a])
    && (forall a | a in parsed && a !in keys :: parsed[a] != Null && EntryValid(parsed[a], validPattern))
  }

  lemma {:induction false} ConvertStep(parsed: map<string, Value>, filterObj: map<string, Value>,
                                       target: map<string, Value>, keys: set<string>, a: string,
                                       validPattern: string -> bool)
    requires ConvertedOutside(parsed, filterObj, target, keys, validPattern)
    requires a in keys && keys <= parsed.Keys && filterObj[a] != Null && EntryValid(filterObj[a], validPattern)
    ensures ConvertedOutside(parsed, filterObj[a := target[a]], target, keys - {a}, validPattern)
  {
  }

  lemma {:induction false} ConvertAllNull(parsed: map<string, Value>, validPattern: string -> bool, a: string)
    requires a in parsed && parsed[a] == Null
    ensures ConvertAll(parsed, validPattern).Failure? && ConvertThrows(parsed, validPattern, NullEntryError)
  {
  }

  lemma {:induction false} ConvertAllInvalid(parsed: map<string, Value>, validPattern: string -> bool, a: string)
    requires a in parsed && !EntryValid(parsed[a], validPattern)
    ensures ConvertAll(parsed, validPattern).Failure? && ConvertThrows(parsed, validPattern, InvalidPatternError)
  {
  }

  lemma {:induction false} ConvertAllSuccess(parsed: map<string, Value>, validPattern: string -> bool,
                                             filterObj: map<string, Value>, target: map<string, Value>)
    requires target == map a | a in parsed :: ConvertOperators(parsed[a])
    requires ConvertedOutside(parsed, filterObj, target, {}, validPattern)
    ensures ConvertAll(parsed, validPattern) == Success(filterObj)
  {
    assert filterObj == target;
  }

  /**
   * `getFilterObj` as written in the helpers: deletes in place, rewrites the
   * JSON text, converts each entry. It returns the specified object whenever
   * that exists, and otherwise throws one of the exceptions it can throw.
   */
  method GetFilterObj(queryObj: map<string, Value>, excludedFilterFields: seq<string>, isFilterObjPrepared: bool,
                      validPattern: string -> bool)
    returns (r: Result<map<string, Value>, JsError>)
    ensures var f := FilterObjSpec(queryObj, excludedFilterFields, isFilterObjPrepared, validPattern);
      && (f.Success? ==> r == f)
      && (f.Failure? ==> r.Failure? && FilterObjThrows(queryObj, excludedFilterFields, isFilterObjPrepared, validPattern, r.error))
  {
    var q := queryObj;
    var omit := ControlFields + excludedFilterFields;
    for i := 0 to |omit|
      invariant q == queryObj - Elements(omit[..i])
    {
      assert Elements(omit[..i + 1]) == Elements(omit[..i]) + {omit[i]};
      q := q - {omit[i]};
    }
    assert omit[..|omit|] == omit;
    if isFilterObjPrepared {
      return Success(q);
    }
    r := ConvertEntries(RewriteObject(q), validPattern);
  }

  // ---------------------------------------------------------------------------
  // Properties of getFilterObj
  // ---------------------------------------------------------------------------

  lemma {:induction false} ConvertComparisonsEffect(m: map<string, Value>, ops: seq<string>)
    requires forall i, j | 0 <= i < j < |ops| :: ops[i] != ops[j]
    ensures ConvertComparisons(m, ops).Keys == m.Keys
    ensures forall k | k in m && k !in ops :: ConvertComparisons(m, ops)[k] == m[k]
    ensures forall k | k in m && k in ops ::
              ConvertComparisons(m, ops)[k] == if Truthy(m[k]) then ToNumber(m[k]) else m[k]
    decreases |ops|
  {
    if ops != [] {
      var init := ops[..|ops| - 1];
      var last := ops[|ops| - 1];
      ConvertComparisonsEffect(m, init);
      assert forall k | k in ops :: k in init || k == last;
      assert last !in init;
    }
  }

  /** Expanding a present key replaces it by the target key; every other key keeps its value. */
  lemma {:induction false} ExpandPatternsEffect(m: map<string, Value>, from: string, to: string)
    requires from != to
    ensures from !in ExpandPatterns(m, from, to, true)
    ensures from in m ==> to in ExpandPatterns(m, from, to, true) && ExpandPatterns(m, from, to, true)[to] == Arr(PatternList(m[from]))
    ensures forall k | k in m && k != from && k != to :: k in ExpandPatterns(m, from, to, true) && ExpandPatterns(m, from, to, true)[k] == m[k]
  {
  }

  /**
   * One parsed entry after conversion: `$allregex` and `$inregex` are gone,
   * and `$all` / `$in` hold one case-insensitive pattern per original value;
   * an invalid source among those values makes the conversion throw.
   */
  lemma {:induction false} ConvertExpandsPatterns(m: map<string, Value>, validPattern: string -> bool)
    ensures "$allregex" in m && !AllValid(FlatItems(m["$allregex"]), validPattern) ==>
              ConvertEntryValue(Obj(m), validPattern) == Failure(InvalidPatternError)
    ensures "$inregex" in m && !AllValid(FlatItems(m["$inregex"]), validPattern) ==>
              ConvertEntryValue(Obj(m), validPattern) == Failure(InvalidPatternError)
    ensures ConvertOperators(Obj(m)).Obj?
    ensures "$allregex" !in ConvertOperators(Obj(m)).fields && "$inregex" !in ConvertOperators(Obj(m)).fields
    ensures "$allregex" in m ==>
              "$all" in ConvertOperators(Obj(m)).fields
              && ConvertOperators(Obj(m)).fields["$all"] == Arr(PatternList(m["$allregex"]))
    ensures "$inregex" in m ==>
              "$in" in ConvertOperators(Obj(m)).fields
              && ConvertOperators(Obj(m)).fields["$in"] == Arr(PatternList(m["$inregex"]))
  {
    var m1 := RegexStep(m);
    var m2 := ConvertComparisons(m1, ComparisonOps);
    var m3 := ExpandPatterns(m2, "$allregex", "$all", true);
    ConvertComparisonsEffect(m1, ComparisonOps);
    ExpandPatternsEffect(m2, "$allregex", "$all");
    ExpandPatternsEffect(m3, "$inregex", "$in");
    assert "$allregex" !in ComparisonOps && "$inregex" !in ComparisonOps;
  }

  /** A truthy `$regex` becomes a case-insensitive pattern of the same source, or throws when that source is invalid. */
  lemma {:induction false} ConvertRegexEntry(m: map<string, Value>, validPattern: string -> bool)
    requires "$regex" in m && Truthy(m["$regex"])
    ensures !validPattern(PatternSource(m["$regex"])) ==> ConvertEntryValue(Obj(m), validPattern) == Failure(InvalidPatternError)
    ensures ConvertOperators(Obj(m)).Obj?
    ensures "$regex" in ConvertOperators(Obj(m)).fields
    ensures ConvertOperators(Obj(m)).fields["$regex"] == CIPattern(PatternSource(m["$regex"]))
  {
    var m1 := RegexStep(m);
    var m2 := ConvertComparisons(m1, ComparisonOps);
    var m3 := ExpandPatterns(m2, "$allregex", "$all", true);
    ConvertComparisonsEffect(m1, ComparisonOps);
    assert "$regex" !in ComparisonOps;
    ExpandPatternsEffect(m2, "$allregex", "$all");
    ExpandPatternsEffect(m3, "$inregex", "$in");
  }

  /** A truthy comparison value becomes a number. */
  lemma {:induction false} ConvertComparisonEntries(m: map<string, Value>)
    ensures ConvertOperators(Obj(m)).Obj?
    ensures forall b | b in ComparisonOps && b in m && Truthy(m[b]) ::
              b in ConvertOperators(Obj(m)).fields && ConvertOperators(Obj(m)).fields[b] == ToNumber(m[b])
  {
    var m1 := RegexStep(m);
    var m2 := ConvertComparisons(m1, ComparisonOps);
    var m3 := ExpandPatterns(m2, "$allregex", "$all", true);
    ConvertComparisonsEffect(m1, ComparisonOps);
    ExpandPatternsEffect(m2, "$allregex", "$all");
    ExpandPatternsEffect(m3, "$inregex", "$in");
    assert forall b | b in ComparisonOps :: b != "$regex" && b != "$allregex" && b != "$all" && b != "$inregex" && b != "$in";
  }

  /** Every key that is not an operator keeps its value. */
  lemma {:induction false} ConvertKeepsOtherKeys(m: map<string, Value>)
    ensures ConvertOperators(Obj(m)).Obj?
    ensures forall k | k in m && k !in OperatorKeys ::
              k in ConvertOperators(Obj(m)).fields && ConvertOperators(Obj(m)).fields[k] == m[k]
  {
    var m1 := RegexStep(m);
    var m2 := ConvertComparisons(m1, ComparisonOps);
    var m3 := ExpandPatterns(m2, "$allregex", "$all", true);
    ConvertComparisonsEffect(m1, ComparisonOps);
    ExpandPatternsEffect(m2, "$allregex", "$all");
    ExpandPatternsEffect(m3, "$inregex", "$in");
    assert forall k | k !in OperatorKeys :: k !in ComparisonOps;
  }

  /**
   * `[v].flat().map(c => new RegExp(c, 'i'))` throws exactly when one
   * element's source is invalid, and otherwise has one case-insensitive
   * pattern per element of an array, or one for any other value.
   */
  lemma {:induction false} PatternListLength(v: Value, validPattern: string -> bool)
    ensures var elems := if v.Arr? then v.items else [v];
            CompilePatterns(v, validPattern).Failure?
            <==> exists i | 0 <= i < |elems| :: !validPattern(PatternSource(elems[i]))
    ensures var elems := if v.Arr? then v.items else [v];
            var r := CompilePatterns(v, validPattern);
            r.Success? ==> |r.value| == |elems|
                           && forall i | 0 <= i < |r.value| :: r.value[i] == CIPattern(PatternSource(elems[i]))
  {
  }

  /** A text without `$` is its own restoration. */
  lemma {:induction false} RestoreWithoutDollar(s: string, isOp: string -> bool)
    requires '$' !in s
    ensures RestoreWordsBy(s, isOp) == s
    decreases |s|
  {
    if s == [] {
    } else if !IsWordChar(s[0]) {
      assert s[0] != '$';
      RestoreWithoutDollar(s[1..], isOp);
    } else {
      var n := WordRun(s);
      assert '$' !in s[n..];
      RestoreWithoutDollar(s[n..], isOp);
    }
  }

  /**
   * Every key of the filter comes from a key of the parameters that is not
   * removed: `page`, `sort`, `limit`, `fields` and the excluded fields never
   * reach the filter (an excluded field that holds a `$` can be produced by
   * the rewrite of another key, so it is stated through the restored key).
   */
  lemma {:induction false} RemovedFieldsNeverFilter(queryObj: map<string, Value>, excludedFilterFields: seq<string>, isFilterObjPrepared: bool,
                                                    validPattern: string -> bool)
    requires FilterObjSpec(queryObj, excludedFilterFields, isFilterObjPrepared, validPattern).Success?
    ensures var r := FilterObjSpec(queryObj, excludedFilterFields, isFilterObjPrepared, validPattern).value;
      && (isFilterObjPrepared ==> r == queryObj - RemovedFields(excludedFilterFields))
      && (isFilterObjPrepared ==> forall k | k in r :: k in queryObj && k !in RemovedFields(excludedFilterFields))
      && (!isFilterObjPrepared ==>
            forall k | k in r :: RestoreWords(k) in queryObj && RestoreWords(k) !in RemovedFields(excludedFilterFields))
      && (forall f | f in RemovedFields(excludedFilterFields) && '$' !in f :: f !in r)
  {
    var base := queryObj - RemovedFields(excludedFilterFields);
    var r := FilterObjSpec(queryObj, excludedFilterFields, isFilterObjPrepared, validPattern).value;
    if !isFilterObjPrepared {
      var parsed := RewriteObject(base);
      assert r.Keys == parsed.Keys;
      RewriteObjectKeys(base);
      forall f | f in RemovedFields(excludedFilterFields) && '$' !in f ensures f !in r {
        RestoreWithoutDollar(f, IsOperatorWord);
      }
    }
  }

  /** Rewriting the parameters and then restoring each key gives back the key set of the surviving parameters. */
  lemma {:induction false} RewriteObjectKeys(m: map<string, Value>)
    ensures forall k | k in m && m[k] != Undefined :: RewriteWords(k) in RewriteObject(m)
    ensures forall k | k in RewriteObject(m) :: RestoreWords(k) in m && RewriteWords(RestoreWords(k)) == k
  {
    forall k | k in RewriteObject(m) ensures RestoreWords(k) in m && RewriteWords(RestoreWords(k)) == k {
      var k0 :| k0 in m && m[k0] != Undefined && RewriteWords(k0) == k;
      RestoreRewrite(k0);
    }
  }

  // ---------------------------------------------------------------------------
  // The call sites: the second argument of getFilterObj
  // ---------------------------------------------------------------------------

  /** What a caller passes as the second argument of `getFilterObj`. */
  datatype SecondArgument =
    | Omitted
    | FieldList(fields: seq<string>)
    | OptionsObject(excludedFilterFields: seq<string>, isFilterObjPrepared: bool)

  /** The spread `...excludedFilterFields` at line 35: only an iterable can be spread. */
  function SpreadExcludedFields(arg: SecondArgument): Result<seq<string>, JsError> {
    match arg
    case Omitted => Success([])
    case FieldList(fields) => Success(fields)
    case OptionsObject(_, _) => Failure(TypeError("excludedFilterFields is not iterable"))
  }

  /** `getFilterObj(queryObj, arg)` as the query handler and the recommendation handler call it. */
  function GetFilterObjAsCalled(queryObj: map<string, Value>, arg: SecondArgument, validPattern: string -> bool)
    : Result<map<string, Value>, JsError>
  {
    match SpreadExcludedFields(arg)
    case Failure(e) => Failure(e)
    case Success(fields) => FilterObjSpec(queryObj, fields, false, validPattern)
  }

  /** Passing an options object, as both call sites do, throws before any field is removed. */
  lemma {:induction false} OptionsObjectCallThrows(queryObj: map<string, Value>, excluded: seq<string>, prepared: bool,
                                                   validPattern: string -> bool)
    ensures GetFilterObjAsCalled(queryObj, OptionsObject(excluded, prepared), validPattern)
            == Failure(TypeError("excludedFilterFields is not iterable"))
  {
  }
}
