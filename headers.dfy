/** The WSGI environ variables a header view keeps, and the keys it files them under. */
module HeaderNames {
  import opened Text

  /** The environ variables a header view keeps: the two CGI content variables and every `HTTP_` one. */
  predicate IsHeaderVariable(name: string) {
    name == "CONTENT_LENGTH" || name == "CONTENT_TYPE" || (|name| >= 5 && name[..5] == "HTTP_")
  }

  /** `name.replace('HTTP_', '').replace('_', '-').lower()`. */
  function NormalKey(name: string): string {
    Lower(Hyphenate(RemoveAll(name, "HTTP_")))
  }

  /**
   * An `HTTP_` variable loses its prefix: `HTTP_X_FOO` is filed under `x-foo`,
   * and `HTTP_AUTHORIZATION` under `authorization`.
   */
  lemma HttpPrefixRemoved(rest: string)
    requires forall i :: !OccursAt(rest, "HTTP_", i)
    ensures NormalKey("HTTP_" + rest) == Lower(Hyphenate(rest))
  {
    RemoveAllPrefix(rest, "HTTP_");
    RemoveAllAbsent(rest, "HTTP_");
  }

  /**
   * An inner `HTTP_` is removed as well: `HTTP_X_HTTP_METHOD_OVERRIDE` is
   * filed under `x-method-override`.
   */
  lemma HttpInnerRemoved(a: string, b: string)
    requires forall i :: 0 <= i < |a| ==> !OccursAt(a + ("HTTP_" + b), "HTTP_", i)
    requires forall i :: !OccursAt(b, "HTTP_", i)
    ensures NormalKey("HTTP_" + a + "HTTP_" + b) == Lower(Hyphenate(a + b))
  {
    assert "HTTP_" + a + "HTTP_" + b == "HTTP_" + (a + ("HTTP_" + b));
    RemoveAllPrefix(a + ("HTTP_" + b), "HTTP_");
    RemoveAllKeeps(a, "HTTP_" + b, "HTTP_");
    RemoveAllPrefix(b, "HTTP_");
    RemoveAllAbsent(b, "HTTP_");
  }

  /** A normalised key is lower-case and has no underscore. */
  predicate IsNormal(key: string) {
    IsLower(key) && forall i :: 0 <= i < |key| ==> key[i] != '_'
  }

  lemma NormalKeyIsNormal(name: string)
    ensures IsNormal(NormalKey(name))
  {
    var h := Hyphenate(RemoveAll(name, "HTTP_"));
    LowerIsLower(h);
    assert forall i :: 0 <= i < |h| ==> h[i] != '_';
  }

  // Helpers for the two lemmas below: the spellings of the two content variables,
  // one step at a time. Each step is a lemma of its own, and takes the literal as
  // a parameter, so that the verifier does not unfold both literals in one goal.
  lemma HyphenateContentLength(name: string)
    requires name == "CONTENT_LENGTH"
    ensures Hyphenate(name) == "CONTENT-LENGTH"
  {
  }

  lemma LowerContentLength(name: string)
    requires name == "CONTENT-LENGTH"
    ensures Lower(name) == "content-length"
  {
  }

  lemma HyphenateContentType(name: string)
    requires name == "CONTENT_TYPE"
    ensures Hyphenate(name) == "CONTENT-TYPE"
  {
  }

  lemma LowerContentType(name: string)
    requires name == "CONTENT-TYPE"
    ensures Lower(name) == "content-type"
  {
  }

  /** The key of the content length variable. */
  lemma ContentLengthKey()
    ensures NormalKey("CONTENT_LENGTH") == "content-length"
  {
    FirstCharAbsent("CONTENT_LENGTH", "HTTP_");
    RemoveAllAbsent("CONTENT_LENGTH", "HTTP_");
    HyphenateContentLength("CONTENT_LENGTH");
    LowerContentLength("CONTENT-LENGTH");
  }

  /** The key of the content type variable. */
  lemma ContentTypeKey()
    ensures NormalKey("CONTENT_TYPE") == "content-type"
  {
    FirstCharAbsent("CONTENT_TYPE", "HTTP_");
    RemoveAllAbsent("CONTENT_TYPE", "HTTP_");
    HyphenateContentType("CONTENT_TYPE");
    LowerContentType("CONTENT-TYPE");
  }

  /** A string with no upper-case letter is its own lower-casing. */
  lemma LowerOfLower(s: string)
    requires IsLower(s)
    ensures Lower(s) == s
  {
  }

  /** The keys the request looks up are already lower-case, so the lookup finds them as written. */
  lemma ContentKeysLower()
    ensures Lower("content-type") == "content-type"
    ensures Lower("content-length") == "content-length"
  {
    ContentTypeKey();
    NormalKeyIsNormal("CONTENT_TYPE");
    LowerOfLower("content-type");
    ContentLengthKey();
    NormalKeyIsNormal("CONTENT_LENGTH");
    LowerOfLower("content-length");
  }

  /** Environ variable `name` is kept by a header view, under `key`. */
  predicate FiledUnder(name: string, key: string) {
    IsHeaderVariable(name) && NormalKey(name) == key
  }
}

/**
 * The header views of a request and a response (`ReadOnlyHeaders` and
 * `RewritableHeaders`): a dict held in the object's `__dict__`, built from the
 * WSGI environ's header variables with their names normalised.
 */
module Headers {
  import opened Wrappers
  import opened Text
  import opened Values
  import opened HeaderNames

  /** A Python dict with string keys, in insertion order; a key's first pair holds its value. */
  type Items = seq<(string, Value)>

  function Keys(d: Items): (keys: seq<string>)
    ensures |keys| == |d|
    ensures forall i :: 0 <= i < |d| ==> keys[i] == d[i].0
  {
    if d == [] then [] else [d[0].0] + Keys(d[1..])
  }

  /** `d.get(key)`. */
  function Find(d: Items, key: string): (r: Option<Value>)
    ensures r.Some? <==> key in Keys(d)
  {
    if d == [] then None
    else if d[0].0 == key then Some(d[0].1)
    else Find(d[1..], key)
  }

  /**
   * `d[key] = value`: an existing key keeps its place and takes the new value,
   * a new key goes last; no other key's value changes.
   */
  function Put(d: Items, key: string, value: Value): (r: Items)
    ensures Keys(r) == if key in Keys(d) then Keys(d) else Keys(d) + [key]
    ensures Find(r, key) == Some(value)
    ensures forall other :: other != key ==> Find(r, other) == Find(d, other)
  {
    if d == [] then [(key, value)]
    else if d[0].0 == key then [(key, value)] + d[1..]
    else [d[0]] + Put(d[1..], key, value)
  }

  /** Writing back the value a key already has leaves the dict exactly as it was. */
  lemma {:induction false} PutExisting(d: Items, key: string, value: Value)
    requires Find(d, key) == Some(value)
    ensures Put(d, key, value) == d
  {
    if d != [] && d[0].0 != key {
      PutExisting(d[1..], key, value);
    }
  }

  /** A new key goes after every pair already there. */
  lemma {:induction false} PutNew(d: Items, key: string, value: Value)
    requires key !in Keys(d)
    ensures Put(d, key, value) == d + [(key, value)]
  {
    if d != [] {
      var rest := d[1..];
      assert Keys(d) == [d[0].0] + Keys(rest);
      assert Put(d, key, value) == [d[0]] + Put(rest, key, value);
      PutNew(rest, key, value);
      assert [d[0]] + (rest + [(key, value)]) == d + [(key, value)];
    }
  }

  /** `d.get(key, default)`. */
  function GetOr(d: Items, key: string, default: Value): (r: Value)
    ensures key in Keys(d) ==> Find(d, key) == Some(r)
    ensures key !in Keys(d) ==> r == default
  {
    match Find(d, key)
    case Some(v) => v
    case None => default
  }

  /**
   * `_s2any(v)`: a string of digits becomes its integer, a `digits.digits`
   * string its float, and anything else is returned unchanged.
   */
  function S2Any(v: Value): Value {
    match v
    case Str(s) =>
      if IsDigits(s) then Int(ValueOf(s))
      else if IsDecimal(s) then
        var dot := DotIndex(s).value;
        Decimal(false, s[..dot], s[dot + 1..])
      else v
    case _ => v
  }

  /** Coercion reads back the spelling of any non-negative integer. */
  lemma S2AnySpell(n: nat)
    ensures S2Any(Str(Spell(n))) == Int(n)
  {
    ValueOfSpell(n);
  }

  /** Coercion only ever turns a string into a number, never a negative one, and leaves other values alone. */
  lemma S2AnyShape(v: Value)
    ensures !v.Str? ==> S2Any(v) == v
    ensures S2Any(v) == v || (v.Str? && IsNumber(S2Any(v)) && !IsNegative(S2Any(v)))
    ensures v.Str? && !IsDigits(v.s) && !IsDecimal(v.s) ==> S2Any(v) == v
  {
  }

  /** Coercing twice is coercing once. */
  lemma S2AnyIdempotent(v: Value)
    ensures S2Any(S2Any(v)) == S2Any(v)
  {
  }

  /** A number, as Python's `max` compares it with 0 (a bool is an int). */
  predicate IsNumber(v: Value) { v.Int? || v.Bool? || v.Decimal? }

  /** `max(v or 0, 0)`: comparing 0 with anything but a number raises TypeError. */
  function ClampValue(v: Value): (r: Result<Value>)
    ensures r.Ok? <==> IsNumber(v) || !Truthy(v)
    ensures r.Err? ==> r.error == TypeError
    ensures r.Ok? ==> IsNumber(r.value) && !IsNegative(r.value)
    ensures r.Ok? && (!Truthy(v) || IsNegative(v)) ==> r.value == Int(0)
    ensures r.Ok? && Truthy(v) && !IsNegative(v) ==> r.value == v
  {
    var w := if Truthy(v) then v else Int(0);
    if !IsNumber(w) then Err(TypeError)
    else if IsNegative(w) then Ok(Int(0))
    else Ok(w)
  }

  /** Lines 141-143 of the constructor: clamp a present `content-length`. */
  function Clamped(d: Items): Result<Items> {
    match Find(d, "content-length")
    case None => Ok(d)
    case Some(v) =>
      match ClampValue(v)
      case Ok(c) => Ok(Put(d, "content-length", c))
      case Err(e) => Err(e)
  }

  /**
   * The clamp fails exactly when a present `content-length` is truthy and not
   * a number; otherwise it leaves every other key alone and makes
   * `content-length` a number that is not negative.
   */
  lemma {:induction false} ClampedSpec(d: Items)
    ensures Clamped(d).Err? <==>
      Find(d, "content-length").Some? && Truthy(Find(d, "content-length").value) &&
      !IsNumber(Find(d, "content-length").value)
    ensures Clamped(d).Ok? ==> Keys(Clamped(d).value) == Keys(d)
    ensures Clamped(d).Ok? ==> forall key :: key != "content-length" ==> Find(Clamped(d).value, key) == Find(d, key)
    ensures Clamped(d).Ok? && Find(d, "content-length").Some? ==>
      var c := Find(Clamped(d).value, "content-length");
      c.Some? && IsNumber(c.value) && !IsNegative(c.value)
    ensures Clamped(d).Ok? && Find(d, "content-length").Some? ==>
      Find(Clamped(d).value, "content-length") == Some(ClampValue(Find(d, "content-length").value).value)
  {
  }

  /** The dict comprehension of lines 135-140, in the environ's order. */
  function Comprehension(environ: Items): Items {
    if environ == [] then []
    else
      var n := |environ| - 1;
      var view := Comprehension(environ[..n]);
      if IsHeaderVariable(environ[n].0) then Put(view, NormalKey(environ[n].0), S2Any(environ[n].1)) else view
  }

  /** Some variable of the environ is filed under `key`. */
  predicate Named(environ: Items, key: string) {
    exists i :: 0 <= i < |environ| && FiledUnder(environ[i].0, key)
  }

  /** The comprehension keeps a key exactly when some header variable normalises to it. */
  lemma {:induction false} ComprehensionKeys(environ: Items, key: string)
    ensures Find(Comprehension(environ), key).Some? <==> Named(environ, key)
  {
    if environ != [] {
      var n := |environ| - 1;
      var init := environ[..n];
      ComprehensionKeys(init, key);
      if Named(environ, key) && !FiledUnder(environ[n].0, key) {
        var i :| 0 <= i < |environ| && FiledUnder(environ[i].0, key);
        assert i < n && init[i] == environ[i];
      }
      if Named(init, key) {
        var i :| 0 <= i < n && FiledUnder(init[i].0, key);
        assert environ[i] == init[i];
      }
    }
  }

  /** When two variables normalise to the same key, the later one's coerced value wins. */
  lemma {:induction false} ComprehensionLastWins(environ: Items, key: string, i: int)
    requires 0 <= i < |environ| && FiledUnder(environ[i].0, key)
    requires forall j :: i < j < |environ| ==> !FiledUnder(environ[j].0, key)
    ensures Find(Comprehension(environ), key) == Some(S2Any(environ[i].1))
  {
    var n := |environ| - 1;
    var init := environ[..n];
    if i < n {
      assert init[i] == environ[i];
      ComprehensionLastWins(init, key, i);
      if IsHeaderVariable(environ[n].0) {
        assert NormalKey(environ[n].0) != key;
      }
    }
  }

  /** Every key of the comprehension is normalised. */
  lemma {:induction false} ComprehensionKeysNormal(environ: Items)
    ensures forall key :: key in Keys(Comprehension(environ)) ==> IsNormal(key)
  {
    if environ != [] {
      ComprehensionKeysNormal(environ[..|environ| - 1]);
      NormalKeyIsNormal(environ[|environ| - 1].0);
    }
  }

  /** `d[key]` on a dict: the entry, or KeyError. */
  function Subscript(d: Items, key: string): (r: Result<Value>)
    ensures r.Ok? <==> key in Keys(d)
    ensures r.Ok? ==> Find(d, key) == Some(r.value)
    ensures r.Err? ==> r.error == KeyError(key)
  {
    match Find(d, key)
    case Some(v) => Ok(v)
    case None => Err(KeyError(key))
  }

  /** `h[key]` on the dict of a header view: the key is lower-cased first. */
  function Lookup(d: Items, key: string): (r: Result<Value>)
    ensures r.Ok? <==> Lower(key) in Keys(d)
    ensures r.Ok? ==> Find(d, Lower(key)) == Some(r.value)
    ensures r.Err? ==> r.error == KeyError(Lower(key))
  {
    Subscript(d, Lower(key))
  }

  /**
   * A view is looked up by the lower-cased key only: a key written with `_`
   * (`content_type`) is never found, whatever the environ holds.
   */
  lemma {:induction false} UnderscoreKeyMissing(environ: Items, key: string, i: int)
    requires 0 <= i < |key| && key[i] == '_'
    ensures Lookup(Comprehension(environ), key) == Err(KeyError(Lower(key)))
  {
    ComprehensionKeysNormal(environ);
    assert Lower(key)[i] == '_';
  }

  /**
   * A signed `content-length` (`-5`) is not coerced to a number, so the clamp
   * raises TypeError instead of reading it as 0.
   */
  lemma {:induction false} SignedLengthRejected(environ: Items, i: int, s: string)
    requires 0 <= i < |environ| && FiledUnder(environ[i].0, "content-length")
    requires forall j :: i < j < |environ| ==> !FiledUnder(environ[j].0, "content-length")
    requires environ[i].1 == Str(s) && |s| > 0 && s[0] == '-'
    ensures Clamped(Comprehension(environ)) == Err(TypeError)
  {
    ComprehensionLastWins(environ, "content-length", i);
    SignedNotCoerced(s);
  }

  /** A string with a leading sign is neither digits nor a decimal, so coercion keeps it. */
  lemma SignedNotCoerced(s: string)
    requires |s| > 0 && s[0] == '-'
    ensures S2Any(Str(s)) == Str(s)
  {
    assert !IsDigit(s[0]);
    match DotIndex(s)
    case None =>
    case Some(dot) =>
      if dot > 0 {
        assert s[..dot][0] == s[0];
      }
  }

  /** The name of the view's `get` method, which an entry of the same name hides. */
  const GET := "get"

  /**
   * `ReadOnlyHeaders` and `RewritableHeaders`: the view's instance dict, and
   * whether the handler may write to it.
   */
  class HeaderView {
    const rewritable: bool
    var items: Items

    /** `ReadOnlyHeaders(environ)` up to the clamp: the filtered, normalised comprehension. */
    constructor ReadOnly(environ: Items)
      ensures !rewritable && items == Comprehension(environ)
    {
      rewritable := false;
      items := Comprehension(environ);
    }

    /** `RewritableHeaders()`: the same construction over an empty source. */
    constructor Rewritable()
      ensures rewritable && items == []
    {
      rewritable := true;
      items := Comprehension([]);
    }

    /** The tail of `__init__`: clamp `content-length` in place, or raise. */
    method ClampContentLength() returns (outcome: Outcome)
      modifies this
      ensures outcome.Pass? <==> Clamped(old(items)).Ok?
      ensures outcome.Pass? ==> items == Clamped(old(items)).value
      ensures outcome.Fail? ==> outcome.error == Clamped(old(items)).error && items == old(items)
    {
      var cl := Find(items, "content-length");
      if cl.Some? {
        var clamped := ClampValue(cl.value);
        if clamped.Err? {
          return Fail(clamped.error);
        }
        items := Put(items, "content-length", clamped.value);
      }
      outcome := Pass;
    }

    /** `h[key]`: the entry for the lower-cased key, or KeyError. */
    function Index(key: string): (r: Result<Value>)
      reads this
      ensures r.Ok? <==> Lower(key) in Keys(items)
      ensures r.Ok? ==> Find(items, Lower(key)) == Some(r.value)
      ensures r.Err? ==> r.error == KeyError(Lower(key))
    {
      Lookup(items, key)
    }

    /**
     * `h.get(key, default)`: the key is looked up as given, not normalised. The
     * entries live in the view's instance dict, so an entry named `get` hides
     * the method; no value a view holds is callable, so the call raises TypeError.
     */
    function Get(key: string, default: Value): (r: Result<Value>)
      reads this
      ensures r.Err? <==> GET in Keys(items)
      ensures r.Err? ==> r.error == TypeError
      ensures r.Ok? && key in Keys(items) ==> Find(items, key) == Some(r.value)
      ensures r.Ok? && key !in Keys(items) ==> r.value == default
    {
      if GET in Keys(items) then Err(TypeError) else Ok(GetOr(items, key, default))
    }

    /**
     * `h[key] = value` on a rewritable view sets the entry for the lower-cased
     * key; a read-only view has no item assignment and raises TypeError.
     */
    method Set(key: string, value: Value) returns (outcome: Outcome)
      modifies this
      ensures rewritable ==> outcome == Pass && items == Put(old(items), Lower(key), value)
      ensures !rewritable ==> outcome == Fail(TypeError) && items == old(items)
    {
      if !rewritable {
        return Fail(TypeError);
      }
      items := Put(items, Lower(key), value);
      outcome := Pass;
    }
  }
}
