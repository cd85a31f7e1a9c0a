/** utils/apiFeatures.js: the query shaper. An `APIFeatures` object holds a
    lazy database query and the parsed query string; `Filter`, `Sort`,
    `Limit` and `Paginate` each reassign the query and return the object. */
module ApiFeatures {
  import opened Common

  // ---------------------------------------------------------------------
  // The parsed query string and the query descriptor
  // ---------------------------------------------------------------------

  /** A parsed query-string value: a string, or a nested object such as
      `price[gte]=5`, which parses to `{price: {gte: "5"}}`. Entries keep the
      object's property order. */
  datatype QValue = Text(s: string) | Nested(entries: seq<Entry>)
  datatype Entry = Entry(key: string, value: QValue)

  /** One `find` condition object: `{field: value}`, `{field: {$ne: false}}`,
      or the JSON text handed to `JSON.parse` by `filter`. */
  datatype Condition = Equals(field: string, value: string) | NotFalse(field: string) | Json(text: string)

  /** The lazy query: the condition objects merged by successive `find`
      calls, then the sort, projection, skip and limit it was given. */
  datatype Query = Query(
    conditions: seq<Condition>,
    sortSpec: Option<string>,
    projection: Option<string>,
    skip: Option<int>,
    limit: Option<int>)

  function FindQuery(conditions: seq<Condition>): Query
  {
    Query(conditions, None, None, None, None)
  }

  /** The keys `filter` removes before building the criteria. */
  const Reserved: seq<string> := ["page", "sort", "limit", "fields"]

  function Keys(es: seq<Entry>): set<string>
  {
    set i | 0 <= i < |es| :: es[i].key
  }

  /** `obj[k]`: the value of the first entry with key `k`. */
  function Lookup(es: seq<Entry>, k: string): (r: Option<QValue>)
    ensures r.Some? <==> k in Keys(es)
  {
    if es == [] then None
    else if es[0].key == k then Some(es[0].value)
    else
      assert Keys(es) == {es[0].key} + Keys(es[1..]) by {
        forall x | x in Keys(es) ensures x in {es[0].key} + Keys(es[1..]) {
          var i :| 0 <= i < |es| && es[i].key == x;
          if i > 0 { assert es[1..][i - 1] == es[i]; }
        }
      }
      Lookup(es[1..], k)
  }

  /** The entries whose key is not in `ks`, in their original order. */
  function Without(es: seq<Entry>, ks: seq<string>): seq<Entry>
  {
    if es == [] then []
    else (if es[0].key in ks then [] else [es[0]]) + Without(es[1..], ks)
  }

  /** `delete obj[k]`. */
  function Delete(es: seq<Entry>, k: string): seq<Entry>
  {
    Without(es, [k])
  }

  lemma {:induction false} DeleteAfterWithout(es: seq<Entry>, ks: seq<string>, k: string)
    ensures Delete(Without(es, ks), k) == Without(es, ks + [k])
  {
    if es != [] {
      DeleteAfterWithout(es[1..], ks, k);
      var head := if es[0].key in ks then [] else [es[0]];
      assert Without(es, ks) == head + Without(es[1..], ks);
      DeleteDistributes(head, Without(es[1..], ks), k);
    }
  }

  lemma {:induction false} DeleteDistributes(a: seq<Entry>, b: seq<Entry>, k: string)
    ensures Delete(a + b, k) == Delete(a, k) + Delete(b, k)
  {
    if a != [] {
      assert (a + b)[1..] == a[1..] + b;
      DeleteDistributes(a[1..], b, k);
    } else {
      assert a + b == b;
    }
  }

  /** After removing `ks`, a key is present exactly when it was present and
      is not in `ks`, and it keeps its original value. */
  lemma {:induction false} WithoutLookup(es: seq<Entry>, ks: seq<string>, k: string)
    ensures Lookup(Without(es, ks), k) == if k in ks then None else Lookup(es, k)
  {
    if es != [] {
      WithoutLookup(es[1..], ks, k);
      if es[0].key !in ks {
        assert Without(es, ks) == [es[0]] + Without(es[1..], ks);
        assert ([es[0]] + Without(es[1..], ks))[1..] == Without(es[1..], ks);
      } else {
        assert Without(es, ks) == [] + Without(es[1..], ks);
        assert [] + Without(es[1..], ks) == Without(es[1..], ks);
      }
    }
  }

  // ---------------------------------------------------------------------
  // JSON.stringify of the remaining entries
  // ---------------------------------------------------------------------

  function HexDigit(d: nat): char
    requires d < 16
  {
    "0123456789abcdef"[d]
  }

  /** JSON.stringify's escape of one character of a string. */
  function EscapeChar(c: char): string
  {
    if c == '"' then "\\\""
    else if c == '\\' then "\\\\"
    else if c == '\U{0008}' then "\\b"
    else if c == '\U{000C}' then "\\f"
    else if c == '\n' then "\\n"
    else if c == '\r' then "\\r"
    else if c == '\t' then "\\t"
    else if (c as int) < 0x20 then "\\u00" + [HexDigit((c as int) / 16), HexDigit((c as int) % 16)]
    else [c]
  }

  function Escape(s: string): string
  {
    if s == [] then "" else EscapeChar(s[0]) + Escape(s[1..])
  }

  function QuoteJson(s: string): string
  {
    "\"" + Escape(s) + "\""
  }

  /** JSON.stringify of a parsed query-string value. */
  function Stringify(v: QValue): string
    decreases v, 1, 0
  {
    match v
    case Text(s) => QuoteJson(s)
    case Nested(es) => "{" + Members(v, 0) + "}"
  }

  /** The `"key":value` members of an object from entry `i` on. */
  function Members(v: QValue, i: nat): string
    requires v.Nested? && i <= |v.entries|
    decreases v, 0, |v.entries| - i
  {
    if i == |v.entries| then ""
    else
      assert v.entries[i].value < v.entries[i] < v;
      (if i > 0 then "," else "") + QuoteJson(v.entries[i].key) + ":" + Stringify(v.entries[i].value) + Members(v, i + 1)
  }

  // ---------------------------------------------------------------------
  // The operator rewrite: `replace(/\b(gte|gt|lte|lt)\b/g, m => `$${m}`)`
  // ---------------------------------------------------------------------

  predicate IsWordChar(c: char)
  {
    ('a' <= c <= 'z') || ('A' <= c <= 'Z') || ('0' <= c <= '9') || c == '_'
  }

  /** `op` occurs at `i` as a whole word (`\b` on both sides). */
  predicate OpAt(s: string, i: nat, op: string)
  {
    i + |op| <= |s| && s[i..i + |op|] == op
    && (i == 0 || !IsWordChar(s[i - 1]))
    && (i + |op| == |s| || !IsWordChar(s[i + |op|]))
  }

  predicate IsOperator(w: string)
  {
    w == "gte" || w == "gt" || w == "lte" || w == "lt"
  }

  /** The regular expression matches at `i`. */
  predicate OperatorAt(s: string, i: nat)
  {
    OpAt(s, i, "gte") || OpAt(s, i, "gt") || OpAt(s, i, "lte") || OpAt(s, i, "lt")
  }

  /** The replacement output for `s[i..]`: a `$` before every match. */
  function RewriteFrom(s: string, i: nat): string
    requires i <= |s|
    decreases |s| - i
  {
    if i == |s| then ""
    else (if OperatorAt(s, i) then "$" else "") + [s[i]] + RewriteFrom(s, i + 1)
  }

  function RewriteOperators(s: string): string
  {
    RewriteFrom(s, 0)
  }

  /** `s` with every `$` removed. */
  function StripDollar(s: string): string
  {
    if s == [] then "" else (if s[0] == '$' then "" else [s[0]]) + StripDollar(s[1..])
  }

  lemma {:induction false} StripDollarAppend(a: string, b: string)
    ensures StripDollar(a + b) == StripDollar(a) + StripDollar(b)
  {
    if a != [] {
      assert (a + b)[1..] == a[1..] + b;
      StripDollarAppend(a[1..], b);
    } else {
      assert a + b == b;
    }
  }

  /** The rewrite only inserts `$` characters: with them removed, every other
      character of the serialised filter is unchanged, in order. */
  lemma {:induction false} RewriteOnlyInsertsDollars(s: string, i: nat)
    requires i <= |s|
    ensures StripDollar(RewriteFrom(s, i)) == StripDollar(s[i..])
    decreases |s| - i
  {
    if i < |s| {
      RewriteOnlyInsertsDollars(s, i + 1);
      var d := if OperatorAt(s, i) then "$" else "";
      StripDollarAppend(d + [s[i]], RewriteFrom(s, i + 1));
      StripDollarAppend(d, [s[i]]);
      assert s[i..] == [s[i]] + s[i + 1..];
      StripDollarAppend([s[i]], s[i + 1..]);
    }
  }

  predicate AllWordChars(w: string)
  {
    forall k :: 0 <= k < |w| ==> IsWordChar(w[k])
  }

  /** No match starts right after a word character (`\b` fails there). */
  lemma NoOperatorAfterWordChar(s: string, i: nat)
    requires 0 < i < |s| && IsWordChar(s[i - 1])
    ensures !OperatorAt(s, i)
  {
  }

  /** One step of the rewrite at a position where no match starts. */
  lemma CopyStep(s: string, i: nat)
    requires i < |s| && !OperatorAt(s, i)
    ensures RewriteFrom(s, i) == [s[i]] + RewriteFrom(s, i + 1)
  {
  }

  lemma {:induction false} NoOperatorInsideWord(w: string, i: nat)
    requires AllWordChars(w) && 0 < i <= |w|
    ensures RewriteFrom(w, i) == w[i..]
    decreases |w| - i
  {
    if i < |w| {
      NoOperatorAfterWordChar(w, i);
      CopyStep(w, i);
      NoOperatorInsideWord(w, i + 1);
      assert w[i..] == [w[i]] + w[i + 1..];
    }
  }

  /** A whole word is rewritten exactly when it is one of the four operators. */
  lemma WholeWordRewrite(w: string)
    requires |w| >= 1 && AllWordChars(w)
    ensures RewriteOperators(w) == if IsOperator(w) then "$" + w else w
  {
    NoOperatorInsideWord(w, 1);
    assert w == [w[0]] + w[1..];
    forall op | op in ["gte", "gt", "lte", "lt"]
      ensures OpAt(w, 0, op) <==> w == op
    {
      if |op| < |w| {
        assert IsWordChar(w[|op|]);
      }
    }
  }

  /** A non-word character separates: the rewrite of `a + [c] + b` is the
      rewrite of `a`, then `c`, then the rewrite of `b`. So a match never
      spans a quote, a colon, a comma or a brace of the serialised JSON. */
  lemma RewriteSplitsAtNonWord(a: string, c: char, b: string)
    requires !IsWordChar(c)
    ensures RewriteOperators(a + [c] + b) == RewriteOperators(a) + [c] + RewriteOperators(b)
  {
    RewriteRight(a, c, b, 0, |a| + 1);
    RewriteLeft(a, c, b, 0);
  }

  /** `OpAt` looks only at the window `s[i-1..i+|op|+1]`: a position of `b`
      sees the same window after a non-word separator. */
  lemma OpAtRight(a: string, c: char, b: string, k: nat, op: string)
    requires !IsWordChar(c) && k < |b|
    ensures OpAt(a + [c] + b, |a| + 1 + k, op) <==> OpAt(b, k, op)
  {
    var s := a + [c] + b;
    var i := |a| + 1 + k;
    assert s[|a| + 1..] == b;
    if k + |op| <= |b| {
      assert s[i..i + |op|] == b[k..k + |op|];
      if k + |op| < |b| {
        assert s[i + |op|] == b[k + |op|];
      }
    }
    if k > 0 {
      assert s[i - 1] == b[k - 1];
    } else {
      assert s[i - 1] == c;
    }
  }

  lemma OperatorAtRight(a: string, c: char, b: string, k: nat, j: nat)
    requires !IsWordChar(c) && k < |b| && j == |a| + 1 + k
    ensures OperatorAt(a + [c] + b, j) == OperatorAt(b, k)
  {
    OpAtRight(a, c, b, k, "gte");
    OpAtRight(a, c, b, k, "gt");
    OpAtRight(a, c, b, k, "lte");
    OpAtRight(a, c, b, k, "lt");
  }

  /** One step of the rewrite, with whether a match starts given as `m`. */
  lemma RewriteStep(s: string, i: nat, m: bool)
    requires i < |s| && OperatorAt(s, i) == m
    ensures RewriteFrom(s, i) == (if m then "$" else "") + [s[i]] + RewriteFrom(s, i + 1)
  {
  }

  /** Past a non-word separator, the rewrite of `a + [c] + b` at `j` is the
      rewrite of `b` at the matching position `k`. */
  lemma {:induction false} RewriteRight(a: string, c: char, b: string, k: nat, j: nat)
    requires !IsWordChar(c) && k <= |b| && j == |a| + 1 + k
    ensures RewriteFrom(a + [c] + b, j) == RewriteFrom(b, k)
    decreases |b| - k
  {
    if k < |b| {
      var s := a + [c] + b;
      RewriteRight(a, c, b, k + 1, j + 1);
      assert s[j] == b[k];
      OperatorAtRight(a, c, b, k, j);
      var m := OperatorAt(b, k);
      RewriteStep(s, j, m);
      RewriteStep(b, k, m);
      assert RewriteFrom(s, j) == RewriteFrom(b, k);
    } else {
      assert RewriteFrom(b, k) == [];
      assert RewriteFrom(a + [c] + b, j) == [];
    }
  }

  lemma OpAtLeft(a: string, c: char, b: string, i: nat, op: string)
    requires !IsWordChar(c) && i < |a| && AllWordChars(op)
    ensures OpAt(a + [c] + b, i, op) <==> OpAt(a, i, op)
  {
    var s := a + [c] + b;
    if i > 0 {
      assert s[i - 1] == a[i - 1];
    }
    if i + |op| <= |a| {
      assert s[i..i + |op|] == a[i..i + |op|];
      if i + |op| < |a| {
        assert s[i + |op|] == a[i + |op|];
      } else {
        assert s[i + |op|] == c;
      }
    } else if i + |op| <= |s| {
      assert s[i..i + |op|][|a| - i] == c;
    }
  }

  lemma OpAtSeparator(s: string, i: nat, op: string)
    requires i < |s| && !IsWordChar(s[i]) && AllWordChars(op) && |op| >= 1
    ensures !OpAt(s, i, op)
  {
    if i + |op| <= |s| {
      assert s[i..i + |op|][0] == s[i];
    }
  }

  lemma OperatorAtLeft(a: string, c: char, b: string, i: nat)
    requires !IsWordChar(c) && i < |a|
    ensures OperatorAt(a + [c] + b, i) == OperatorAt(a, i)
  {
    OpAtLeft(a, c, b, i, "gte");
    OpAtLeft(a, c, b, i, "gt");
    OpAtLeft(a, c, b, i, "lte");
    OpAtLeft(a, c, b, i, "lt");
  }

  lemma NoOperatorAtSeparator(s: string, i: nat)
    requires i < |s| && !IsWordChar(s[i])
    ensures !OperatorAt(s, i)
  {
    OpAtSeparator(s, i, "gte");
    OpAtSeparator(s, i, "gt");
    OpAtSeparator(s, i, "lte");
    OpAtSeparator(s, i, "lt");
  }

  lemma ConcatAssoc(p: string, q: string, r: string)
    ensures p + (q + r) == (p + q) + r
  {
  }

  lemma {:induction false} RewriteLeft(a: string, c: char, b: string, i: nat)
    requires !IsWordChar(c) && i <= |a|
    ensures RewriteFrom(a + [c] + b, i) == RewriteFrom(a, i) + [c] + RewriteFrom(b, 0)
    decreases |a| - i
  {
    var s := a + [c] + b;
    var rb := RewriteFrom(b, 0);
    if i == |a| {
      assert s[i] == c;
      NoOperatorAtSeparator(s, i);
      RewriteRight(a, c, b, 0, |a| + 1);
      CopyStep(s, i);
      assert RewriteFrom(a, i) == [];
    } else {
      assert s[i] == a[i];
      RewriteLeft(a, c, b, i + 1);
      OperatorAtLeft(a, c, b, i);
      var m := OperatorAt(a, i);
      RewriteStep(s, i, m);
      RewriteStep(a, i, m);
      var p := (if m then "$" else "") + [a[i]];
      var ra := RewriteFrom(a, i + 1);
      ConcatAssoc(p, ra + [c], rb);
      ConcatAssoc(p, ra, [c]);
    }
  }

  /** A string with no special characters is serialised as it is. */
  lemma {:induction false} EscapePlain(s: string)
    requires forall k :: 0 <= k < |s| ==> s[k] != '"' && s[k] != '\\' && (s[k] as int) >= 0x20
    ensures Escape(s) == s
  {
    if s != [] {
      EscapePlain(s[1..]);
      assert [s[0]] + s[1..] == s;
    }
  }

  /** An object with one entry serialises as `{"key":value}`. */
  lemma StringifySingle(k: string, v: QValue)
    ensures Stringify(Nested([Entry(k, v)])) == "{" + QuoteJson(k) + ":" + Stringify(v) + "}"
  {
    var o := Nested([Entry(k, v)]);
    assert |o.entries| == 1 && o.entries[0] == Entry(k, v);
    assert Members(o, 1) == "";
    var m := Members(o, 0);
    assert m == "" + QuoteJson(k) + ":" + Stringify(v) + Members(o, 1);
  }

  predicate PlainText(s: string)
  {
    forall k :: 0 <= k < |s| ==> s[k] != '"' && s[k] != '\\' && (s[k] as int) >= 0x20
  }

  lemma RewriteSeparator(c: char)
    requires !IsWordChar(c)
    ensures RewriteOperators([c]) == [c]
  {
    RewriteSplitsAtNonWord([], c, []);
    assert [] + [c] + [] == [c];
  }

  /** The rewrite distributes over a concatenation whose junction touches a
      non-word character. */
  lemma RewriteAppend(a: string, b: string)
    requires (|a| > 0 && !IsWordChar(a[|a| - 1])) || (|b| > 0 && !IsWordChar(b[0]))
    ensures RewriteOperators(a + b) == RewriteOperators(a) + RewriteOperators(b)
  {
    if |a| > 0 && !IsWordChar(a[|a| - 1]) {
      var a' := a[..|a| - 1];
      var c := a[|a| - 1];
      assert a == a' + [c] + [];
      assert a + b == a' + [c] + b;
      RewriteSplitsAtNonWord(a', c, b);
      RewriteSplitsAtNonWord(a', c, []);
    } else {
      var c := b[0];
      var b' := b[1..];
      assert b == [] + [c] + b';
      assert a + b == a + [c] + b';
      RewriteSplitsAtNonWord(a, c, b');
      RewriteSplitsAtNonWord([], c, b');
    }
  }

  /** A quoted JSON string has its contents rewritten and its quotes kept. */
  lemma RewriteQuoted(x: string)
    ensures RewriteOperators("\"" + x + "\"") == "\"" + RewriteOperators(x) + "\""
  {
    RewriteAppend("\"" + x, "\"");
    RewriteAppend("\"", x);
    RewriteSeparator('"');
  }

  /** A bracket condition `?field[op]=value` reaches `find` with the operator
      prefixed by `$`: `{"field":{"$op":"value"}}`. Words in the field name
      and in the value are rewritten by the same rule. */
  lemma OperatorConditionRewritten(field: string, op: string, value: string)
    requires IsOperator(op) && PlainText(field) && PlainText(value)
    ensures RewriteOperators(Stringify(Nested([Entry(field, Nested([Entry(op, Text(value))]))])))
            == "{" + ("\"" + RewriteOperators(field) + "\"") + ":"
               + ("{" + ("\"" + ("$" + op) + "\"") + ":" + ("\"" + RewriteOperators(value) + "\"") + "}") + "}"
  {
    OperatorIsPlainWord(op);
    WholeWordRewrite(op);
    ConditionSerialised(field, op, value);
    var qf := "\"" + field + "\"";
    var qo := "\"" + op + "\"";
    var qv := "\"" + value + "\"";
    var inner := "{" + qo + ":" + qv + "}";
    RewriteQuoted(field);
    RewriteQuoted(op);
    RewriteQuoted(value);
    RewriteSeparator('{');
    RewriteSeparator(':');
    RewriteSeparator('}');
    RewriteBraced(qo, qv);
    RewriteBraced(qf, inner);
  }

  /** `{a:b}` with `a` quoted and `b` quoted or braced. */
  lemma RewriteBraced(a: string, b: string)
    requires |a| > 0 && a[0] == '"' && a[|a| - 1] == '"'
    requires |b| > 0 && (b[0] == '"' || b[0] == '{')
    ensures RewriteOperators("{" + a + ":" + b + "}")
            == "{" + RewriteOperators(a) + ":" + RewriteOperators(b) + "}"
  {
    RewriteSeparator('{');
    RewriteSeparator(':');
    RewriteSeparator('}');
    RewriteAppend("{" + a + ":" + b, "}");
    assert ("{" + a + ":" + b)[0] == '{';
    RewriteAppend("{" + a + ":", b);
    RewriteAppend("{" + a, ":");
    RewriteAppend("{", a);
  }

  lemma OperatorIsPlainWord(op: string)
    requires IsOperator(op)
    ensures |op| >= 1 && AllWordChars(op) && PlainText(op)
  {
  }

  lemma ConditionSerialised(field: string, op: string, value: string)
    requires PlainText(field) && PlainText(op) && PlainText(value)
    ensures Stringify(Nested([Entry(field, Nested([Entry(op, Text(value))]))]))
            == "{" + ("\"" + field + "\"") + ":" + ("{" + ("\"" + op + "\"") + ":" + ("\"" + value + "\"") + "}") + "}"
  {
    EscapePlain(field);
    EscapePlain(op);
    EscapePlain(value);
    StringifySingle(op, Text(value));
    StringifySingle(field, Nested([Entry(op, Text(value))]));
  }

  lemma OpAtHead(s: string, i: nat, op: string)
    requires i < |s| && |op| >= 1
    ensures OpAt(s, i, op) ==> s[i] == op[0]
  {
    if i + |op| <= |s| {
      assert s[i..i + |op|][0] == s[i];
    }
  }

  /** Every operator starts with `g` or `l`. */
  lemma NoOperatorWithoutLetter(s: string, i: nat)
    requires i < |s| && s[i] != 'g' && s[i] != 'l'
    ensures !OperatorAt(s, i)
  {
    OpAtHead(s, i, "gte");
    OpAtHead(s, i, "gt");
    OpAtHead(s, i, "lte");
    OpAtHead(s, i, "lt");
  }

  /** A string without `g` or `l` is left as it is. */
  lemma RewriteUnchangedWithoutLetters(s: string)
    requires forall k :: 0 <= k < |s| ==> !(s[k] == 'g' || s[k] == 'l')
    ensures RewriteOperators(s) == s
  {
    NoOperatorFrom(s, 0);
  }

  lemma {:induction false} NoOperatorFrom(s: string, i: nat)
    requires i <= |s|
    requires forall k :: 0 <= k < |s| ==> !(s[k] == 'g' || s[k] == 'l')
    ensures RewriteFrom(s, i) == s[i..]
    decreases |s| - i
  {
    if i < |s| {
      NoOperatorFrom(s, i + 1);
      NoOperatorWithoutLetter(s, i);
      CopyStep(s, i);
      assert s[i..] == [s[i]] + s[i + 1..];
      assert RewriteFrom(s, i) == s[i..];
    } else {
      assert RewriteFrom(s, i) == [] == s[i..];
    }
  }

  // ---------------------------------------------------------------------
  // `x * 1 || d` on a query-string value
  // ---------------------------------------------------------------------

  /** The model's view of a JavaScript number produced from a query value. */
  datatype Number = NaN | Int(i: int)

  /** The characters `Number(string)` trims: WhiteSpace and LineTerminator. */
  predicate IsJsSpace(c: char)
  {
    c == '\t' || c == '\U{000B}' || c == '\U{000C}' || c == ' ' || c == '\U{00A0}' || c == '\U{FEFF}'
    || c == '\n' || c == '\r' || c == '\U{2028}' || c == '\U{2029}'
    || c == '\U{1680}' || ('\U{2000}' <= c <= '\U{200A}') || c == '\U{202F}' || c == '\U{205F}' || c == '\U{3000}'
  }

  function TrimStart(s: string): (r: string)
    ensures |r| <= |s|
  {
    if s != [] && IsJsSpace(s[0]) then TrimStart(s[1..]) else s
  }

  function TrimEnd(s: string): (r: string)
    ensures |r| <= |s|
  {
    if s != [] && IsJsSpace(s[|s| - 1]) then TrimEnd(s[..|s| - 1]) else s
  }

  predicate IsDigit(c: char)
  {
    '0' <= c <= '9'
  }

  predicate AllDigits(s: string)
  {
    forall k :: 0 <= k < |s| ==> IsDigit(s[k])
  }

  function DigitsValue(s: string): nat
    requires AllDigits(s)
  {
    if s == [] then 0 else DigitsValue(s[..|s| - 1]) * 10 + (s[|s| - 1] as int - '0' as int)
  }

  /** `Number(s)` for the forms the model reads: an empty or blank string is
      0, an optionally signed run of decimal digits is that integer. */
  function StringToNumber(s: string): Number
  {
    var t := TrimEnd(TrimStart(s));
    if t == "" then Int(0)
    else if AllDigits(t) then Int(DigitsValue(t))
    else if |t| >= 2 && t[0] == '+' && AllDigits(t[1..]) then Int(DigitsValue(t[1..]))
    else if |t| >= 2 && t[0] == '-' && AllDigits(t[1..]) then Int(0 - DigitsValue(t[1..]) as int)
    else NaN
  }

  /** `value * 1`: `undefined` and objects give NaN. */
  function ToNumber(v: Option<QValue>): Number
  {
    match v
    case Some(Text(s)) => StringToNumber(s)
    case _ => NaN
  }

  /** `n || d`: NaN and 0 are falsy. */
  function OrDefault(n: Number, d: int): int
  {
    match n
    case Int(i) => if i == 0 then d else i
    case NaN => d
  }

  // ---------------------------------------------------------------------
  // What each step computes from the query string
  // ---------------------------------------------------------------------

  /** The JSON text `filter` hands to `find`. */
  function Criteria(qs: seq<Entry>): string
  {
    RewriteOperators(Stringify(Nested(Without(qs, Reserved))))
  }

  /** `a.split(',').join(' ')`; `None` when the value is an object, whose
      missing `split` method throws. */
  function SpecFrom(v: Option<QValue>, default: string): Option<string>
  {
    match v
    case Some(Text(s)) => Some(if s != "" then Join(Split(s, ','), " ") else default)
    case Some(Nested(_)) => None
    case None => Some(default)
  }

  function SortSpec(qs: seq<Entry>): Option<string>
  {
    SpecFrom(Lookup(qs, "sort"), "-createdAt")
  }

  function SelectSpec(qs: seq<Entry>): Option<string>
  {
    SpecFrom(Lookup(qs, "fields"), "-__v")
  }

  function PageOf(qs: seq<Entry>): int
  {
    OrDefault(ToNumber(Lookup(qs, "page")), 1)
  }

  function LimitOf(qs: seq<Entry>): int
  {
    OrDefault(ToNumber(Lookup(qs, "limit")), 100)
  }

  /** The whole chain `filter().sort().limit().paginate()` on a base query;
      `None` when a step throws. */
  function Shape(base: Query, qs: seq<Entry>): Option<Query>
  {
    if SortSpec(qs).None? || SelectSpec(qs).None? then None
    else Some(base.(
      conditions := base.conditions + [Json(Criteria(qs))],
      sortSpec := SortSpec(qs),
      projection := SelectSpec(qs),
      skip := Some((PageOf(qs) - 1) * LimitOf(qs)),
      limit := Some(LimitOf(qs))))
  }

  // ---------------------------------------------------------------------
  // The class
  // ---------------------------------------------------------------------

  class APIFeatures {
    var query: Query
    const queryString: seq<Entry>

    constructor (query: Query, queryString: seq<Entry>)
      ensures this.query == query && this.queryString == queryString
    {
      this.query := query;
      this.queryString := queryString;
    }

    /** Copies the query string, deletes the reserved keys one by one, and
        adds the rewritten JSON as a further `find` condition. */
    method Filter() returns (self: APIFeatures)
      modifies this
      ensures self == this
      ensures query == old(query).(conditions := old(query).conditions + [Json(Criteria(queryString))])
    {
      var queryObj := queryString;
      assert Without(queryString, []) == queryString by {
        WithoutNothing(queryString);
      }
      var i := 0;
      while i < |Reserved|
        invariant 0 <= i <= |Reserved|
        invariant queryObj == Without(queryString, Reserved[..i])
        invariant query == old(query)
      {
        DeleteAfterWithout(queryString, Reserved[..i], Reserved[i]);
        assert Reserved[..i] + [Reserved[i]] == Reserved[..i + 1];
        queryObj := Delete(queryObj, Reserved[i]);
        i := i + 1;
      }
      assert Reserved[..|Reserved|] == Reserved;
      assert queryObj == Without(queryString, Reserved);
      var queryStr := RewriteOperators(Stringify(Nested(queryObj)));
      query := query.(conditions := query.conditions + [Json(queryStr)]);
      self := this;
    }

    /** `ok` is false when `sort` is an object and `split` throws; the query
        is then unchanged. */
    method Sort() returns (self: APIFeatures, ok: bool)
      modifies this
      ensures self == this
      ensures ok <==> SortSpec(queryString).Some?
      ensures query == if ok then old(query).(sortSpec := SortSpec(queryString)) else old(query)
    {
      self := this;
      var v := Lookup(queryString, "sort");
      if v.Some? && v.value.Nested? {
        ok := false;
        return;
      }
      ok := true;
      if v.Some? && v.value.s != "" {
        var sortBy := Join(Split(v.value.s, ','), " ");
        query := query.(sortSpec := Some(sortBy));
      } else {
        query := query.(sortSpec := Some("-createdAt"));
      }
    }

    /** Field selection; `ok` as for `Sort`. */
    method Limit() returns (self: APIFeatures, ok: bool)
      modifies this
      ensures self == this
      ensures ok <==> SelectSpec(queryString).Some?
      ensures query == if ok then old(query).(projection := SelectSpec(queryString)) else old(query)
    {
      self := this;
      var v := Lookup(queryString, "fields");
      if v.Some? && v.value.Nested? {
        ok := false;
        return;
      }
      ok := true;
      if v.Some? && v.value.s != "" {
        var fields := Join(Split(v.value.s, ','), " ");
        query := query.(projection := Some(fields));
      } else {
        query := query.(projection := Some("-__v"));
      }
    }

    /** Mongoose's `skip`/`limit` update the query object in place. */
    method Paginate() returns (self: APIFeatures)
      modifies this
      ensures self == this
      ensures query == old(query).(skip := Some((PageOf(queryString) - 1) * LimitOf(queryString)),
                                   limit := Some(LimitOf(queryString)))
    {
      var page := OrDefault(ToNumber(Lookup(queryString, "page")), 1);
      var limit := OrDefault(ToNumber(Lookup(queryString, "limit")), 100);
      var skip := (page - 1) * limit;
      query := query.(skip := Some(skip), limit := Some(limit));
      self := this;
    }
  }

  lemma {:induction false} WithoutNothing(es: seq<Entry>)
    ensures Without(es, []) == es
  {
    if es != [] {
      WithoutNothing(es[1..]);
      assert [es[0]] + es[1..] == es;
    }
  }

  // ---------------------------------------------------------------------
  // Properties of the shaped query
  // ---------------------------------------------------------------------

  /** The criteria are the query string minus exactly `page`, `sort`,
      `limit` and `fields`: every other key keeps its value. */
  lemma FilterKeepsOtherKeys(qs: seq<Entry>, k: string)
    ensures Lookup(Without(qs, Reserved), k) == if k in Reserved then None else Lookup(qs, k)
    ensures Keys(Without(qs, Reserved)) == Keys(qs) - set r | r in Reserved
  {
    WithoutLookup(qs, Reserved, k);
    forall x ensures x in Keys(Without(qs, Reserved)) <==> x in Keys(qs) && x !in Reserved {
      WithoutLookup(qs, Reserved, x);
    }
  }

  /** A present, non-empty `sort` becomes itself with every comma replaced by
      a space; the parts keep their order and count. Otherwise the sort is
      newest first. */
  lemma SortSpecIsCommaToSpace(qs: seq<Entry>)
    ensures Lookup(qs, "sort").Some? && Lookup(qs, "sort").value.Text? && Lookup(qs, "sort").value.s != "" ==>
      var s := Lookup(qs, "sort").value.s;
      SortSpec(qs) == Some(ReplaceChar(s, ',', ' ')) && |Split(s, ',')| == Count(s, ',') + 1
    ensures Lookup(qs, "sort").None? || Lookup(qs, "sort") == Some(Text("")) ==> SortSpec(qs) == Some("-createdAt")
  {
    if Lookup(qs, "sort").Some? && Lookup(qs, "sort").value.Text? {
      var s := Lookup(qs, "sort").value.s;
      JoinSplitIsReplace(s, ',', ' ');
      SplitLength(s, ',');
    }
  }

  /** The projection: `fields` with commas as spaces, otherwise `-__v`. */
  lemma SelectSpecIsCommaToSpace(qs: seq<Entry>)
    ensures Lookup(qs, "fields").Some? && Lookup(qs, "fields").value.Text? && Lookup(qs, "fields").value.s != "" ==>
      SelectSpec(qs) == Some(ReplaceChar(Lookup(qs, "fields").value.s, ',', ' '))
    ensures Lookup(qs, "fields").None? || Lookup(qs, "fields") == Some(Text("")) ==> SelectSpec(qs) == Some("-__v")
  {
    if Lookup(qs, "fields").Some? && Lookup(qs, "fields").value.Text? {
      JoinSplitIsReplace(Lookup(qs, "fields").value.s, ',', ' ');
    }
  }

  /** Page and limit are never 0: a missing, zero or non-numeric parameter
      gives page 1 and limit 100, and the skip is `(page - 1) * limit`. A page
      past the last one is not rejected: nothing here depends on the number
      of records. */
  lemma PaginateDefaults(qs: seq<Entry>)
    ensures PageOf(qs) != 0 && LimitOf(qs) != 0
    ensures "page" !in Keys(qs) ==> PageOf(qs) == 1
    ensures "limit" !in Keys(qs) ==> LimitOf(qs) == 100
    ensures ToNumber(Lookup(qs, "page")) == NaN ==> PageOf(qs) == 1
    ensures ToNumber(Lookup(qs, "limit")) == Int(0) ==> LimitOf(qs) == 100
  {
  }

  /** A decimal page number is read as that number. */
  lemma DecimalPage(digits: string)
    requires |digits| >= 1 && AllDigits(digits) && DigitsValue(digits) != 0
    ensures PageOf([Entry("page", Text(digits))]) == DigitsValue(digits)
  {
    assert TrimStart(digits) == digits by {
      assert !IsJsSpace(digits[0]);
    }
    assert TrimEnd(digits) == digits by {
      assert !IsJsSpace(digits[|digits| - 1]);
    }
  }
}
