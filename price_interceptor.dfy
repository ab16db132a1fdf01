/**
 * The price interceptor: it reads market frames from the exchange's
 * websocket, keeps the latest BTC futures price with the time it arrived,
 * and hands every accepted price to its listeners (in the running system,
 * the fill checker's price update).
 *
 * A frame arrives already decoded; a frame that is not valid JSON is
 * `Malformed`. Calling a listener is outside the model: the interceptor
 * returns the calls it makes, in order, and the caller says which of them
 * raise.
 */
module PriceInterceptor {
  import opened Common

  /** A decoded JSON document. */
  datatype Json =
    | JNull
    | JBool(b: bool)
    | JNumber(n: real)
    | JString(s: string)
    | JArray(items: seq<Json>)
    | JObject(fields: map<string, Json>)

  /** A websocket text frame: not JSON at all, or the document it decodes to. */
  datatype Frame = Malformed | Decoded(value: Json)

  // ------------------------------------------------------ decimal numbers

  predicate IsDigit(c: char) { '0' <= c <= '9' }

  predicate AllDigits(s: string) {
    forall i :: 0 <= i < |s| ==> IsDigit(s[i])
  }

  function DigitValue(c: char): (d: nat)
    requires IsDigit(c)
    ensures d < 10
  {
    (c as int) - ('0' as int)
  }

  function DigitChar(d: nat): (c: char)
    requires d < 10
    ensures IsDigit(c) && DigitValue(c) == d
  {
    (('0' as int) + d) as char
  }

  /** The value of a string of decimal digits, most significant first. */
  function DigitsValue(s: string): nat
    requires AllDigits(s)
  {
    if s == [] then 0 else DigitsValue(s[..|s| - 1]) * 10 + DigitValue(s[|s| - 1])
  }

  function Pow10(n: nat): (r: nat)
    ensures r >= 1
  {
    if n == 0 then 1 else 10 * Pow10(n - 1)
  }

  /** The first position of `c` in `s`, if any. */
  function Find(s: string, c: char): (r: Option<nat>)
    ensures r.None? ==> forall i :: 0 <= i < |s| ==> s[i] != c
    ensures r.Some? ==> r.value < |s| && s[r.value] == c && forall i :: 0 <= i < r.value ==> s[i] != c
  {
    if s == [] then None
    else if s[0] == c then Some(0)
    else match Find(s[1..], c)
      case None => None
      case Some(k) => Some(k + 1)
  }

  /** Digits with at most one decimal point and at least one digit: `12`, `12.5`, `12.`, `.5`. */
  function ParseUnsigned(s: string): (r: Option<real>)
    ensures r.Some? ==> r.value >= 0.0
  {
    match Find(s, '.')
    case None =>
      if s != [] && AllDigits(s) then Some(DigitsValue(s) as real) else None
    case Some(k) =>
      var whole, frac := s[..k], s[k + 1..];
      if |whole| + |frac| >= 1 && AllDigits(whole) && AllDigits(frac)
      then Some(DigitsValue(whole) as real + DigitsValue(frac) as real / Pow10(|frac|) as real)
      else None
  }

  /** `float(s)` on a string: an optional sign followed by an unsigned decimal. */
  function ParseFloat(s: string): Option<real> {
    if |s| > 0 && s[0] == '-' then
      match ParseUnsigned(s[1..])
      case None => None
      case Some(v) => Some(-v)
    else if |s| > 0 && s[0] == '+' then ParseUnsigned(s[1..])
    else ParseUnsigned(s)
  }

  /** The decimal spelling of a natural number, without leading zeros. */
  function NatString(n: nat): (r: string)
    ensures r != [] && AllDigits(r)
  {
    if n < 10 then [DigitChar(n)] else NatString(n / 10) + [DigitChar(n % 10)]
  }

  lemma {:induction false} NatStringValue(n: nat)
    ensures DigitsValue(NatString(n)) == n
  {
    if n >= 10 {
      var s := NatString(n);
      assert s[..|s| - 1] == NatString(n / 10);
      NatStringValue(n / 10);
    }
  }

  /** A decimal integer with or without a minus sign reads back as itself. */
  lemma ParseFloatReadsIntegers(n: nat)
    ensures ParseFloat(NatString(n)) == Some(n as real)
    ensures ParseFloat("-" + NatString(n)) == Some(-(n as real))
    ensures ParseFloat("+" + NatString(n)) == Some(n as real)
  {
    NatStringValue(n);
    var s := NatString(n);
    assert ("-" + s)[1..] == s;
    assert ("+" + s)[1..] == s;
  }

  /** `Find` reports the first occurrence. */
  lemma {:induction false} FindFirst(s: string, c: char, k: nat)
    requires k < |s| && s[k] == c && forall i :: 0 <= i < k ==> s[i] != c
    ensures Find(s, c) == Some(k)
  {
    if k > 0 {
      FindFirst(s[1..], c, k - 1);
    }
  }

  /** Digits, a point and digits read as whole part plus fraction. */
  lemma ParseUnsignedReadsDecimal(w: string, f: string)
    requires w != [] && AllDigits(w) && AllDigits(f)
    ensures ParseUnsigned(w + "." + f) ==
            Some(DigitsValue(w) as real + DigitsValue(f) as real / Pow10(|f|) as real)
  {
    var s := w + ['.'] + f;
    assert s[..|w|] == w && s[|w| + 1..] == f && s[|w|] == '.';
    forall i | 0 <= i < |w| ensures s[i] != '.' {
      assert s[i] == w[i];
    }
    FindFirst(s, '.', |w|);
    assert ParseUnsigned(s) ==
           Some(DigitsValue(s[..|w|]) as real + DigitsValue(s[|w| + 1..]) as real / Pow10(|s[|w| + 1..]|) as real);
  }

  /** A number with a fractional part reads back as whole + frac / 10^(digits of frac). */
  lemma ParseFloatReadsDecimals(whole: nat, frac: nat)
    ensures ParseFloat(NatString(whole) + "." + NatString(frac)) ==
            Some(whole as real + frac as real / Pow10(|NatString(frac)|) as real)
  {
    NatStringValue(whole);
    NatStringValue(frac);
    var w, f := NatString(whole), NatString(frac);
    ParseUnsignedReadsDecimal(w, f);
    assert (w + "." + f)[0] == w[0];
    assert IsDigit(w[0]);
  }

  /** Text without a digit never converts. */
  lemma {:induction false} ParseFloatNeedsADigit(s: string)
    requires forall i :: 0 <= i < |s| ==> !IsDigit(s[i])
    ensures ParseFloat(s) == None
  {
    forall t | t == s || (|s| > 0 && t == s[1..]) ensures ParseUnsigned(t) == None {
      match Find(t, '.')
      case None =>
        if t != [] {
          assert !IsDigit(t[0]);
        }
      case Some(k) =>
        var whole, frac := t[..k], t[k + 1..];
        if |whole| > 0 {
          assert !IsDigit(whole[0]);
        } else if |frac| > 0 {
          assert frac[0] == t[k + 1];
        }
    }
  }

  /**
   * Python's `float(x)` on a decoded JSON value: numbers convert, booleans
   * give 1.0 and 0.0, strings are parsed, and null, arrays and objects raise.
   */
  function ToFloat(v: Json): Option<real> {
    match v
    case JNumber(n) => Some(n)
    case JBool(b) => Some(if b then 1.0 else 0.0)
    case JString(s) => ParseFloat(s)
    case JNull => None
    case JArray(_) => None
    case JObject(_) => None
  }

  // ------------------------------------------------------------- the filter

  /**
   * The shape of a BTC futures price frame: a JSON object whose `biz` is the
   * string "futures", whose `pairCode` is the string "btc", and whose `data`
   * is an object with a `p` field.
   */
  predicate IsBtcFuturesTick(f: Frame) {
    && f.Decoded? && f.value.JObject?
    && "biz" in f.value.fields && f.value.fields["biz"] == JString("futures")
    && "pairCode" in f.value.fields && f.value.fields["pairCode"] == JString("btc")
    && "data" in f.value.fields && f.value.fields["data"].JObject?
    && "p" in f.value.fields["data"].fields
  }

  /** The price a frame carries, when it is a price frame whose `p` converts to a number. */
  function ExtractPrice(f: Frame): (r: Option<real>)
    ensures r.Some? ==> IsBtcFuturesTick(f)
    ensures r.Some? <==> IsBtcFuturesTick(f) && ToFloat(f.value.fields["data"].fields["p"]).Some?
    ensures r.Some? ==> r == ToFloat(f.value.fields["data"].fields["p"])
  {
    if IsBtcFuturesTick(f) then ToFloat(f.value.fields["data"].fields["p"]) else None
  }

  /** A frame for another market, another pair or without a price is never accepted. */
  lemma OtherFramesRejected(fields: map<string, Json>)
    requires "biz" !in fields || fields["biz"] != JString("futures") ||
             "pairCode" !in fields || fields["pairCode"] != JString("btc")
    ensures ExtractPrice(Decoded(JObject(fields))) == None
    ensures ExtractPrice(Malformed) == None
  {
  }

  /** A price frame whose `p` is a JSON number or a decimal string is accepted with that value. */
  lemma PriceFramesAccepted(data: map<string, Json>, rest: map<string, Json>, n: nat)
    requires "p" in data && (data["p"] == JNumber(n as real) || data["p"] == JString(NatString(n)))
    ensures ExtractPrice(Decoded(JObject(rest["biz" := JString("futures")]["pairCode" := JString("btc")]
                                             ["data" := JObject(data)]))) == Some(n as real)
  {
    ParseFloatReadsIntegers(n);
  }

  // --------------------------------------------------------- the listeners

  /** One call of a listener with a price, and whether that call raised. */
  datatype Notification<L> = Notification(listener: L, price: real, raised: bool)

  class PriceInterceptor<L> {
    var currentPrice: Option<real>
    var lastUpdateTime: Option<real>
    var listeners: seq<L>

    /** A price is stored exactly when its arrival time is. */
    ghost predicate Valid()
      reads this
    {
      currentPrice.Some? <==> lastUpdateTime.Some?
    }

    constructor ()
      ensures Valid()
      ensures currentPrice == None && lastUpdateTime == None && listeners == []
    {
      currentPrice, lastUpdateTime, listeners := None, None, [];
    }

    /** Registers a listener after all earlier ones. */
    method AddListener(callback: L)
      modifies this
      ensures listeners == old(listeners) + [callback]
      ensures currentPrice == old(currentPrice) && lastUpdateTime == old(lastUpdateTime)
    {
      listeners := listeners + [callback];
    }

    /**
     * Calls every listener with `price`, in registration order. The calls at
     * the positions in `raising` raise; each failure is caught and the
     * remaining listeners are still called.
     */
    method NotifyListeners(price: real, raising: set<nat>) returns (calls: seq<Notification<L>>)
      ensures |calls| == |listeners|
      ensures forall i :: 0 <= i < |calls| ==> calls[i] == Notification(listeners[i], price, i in raising)
    {
      calls := [];
      var i := 0;
      while i < |listeners|
        invariant 0 <= i <= |listeners|
        invariant |calls| == i
        invariant forall j :: 0 <= j < i ==> calls[j] == Notification(listeners[j], price, j in raising)
      {
        calls := calls + [Notification(listeners[i], price, i in raising)];
        i := i + 1;
      }
    }

    /**
     * Handles one frame arriving at time `now`. A price frame whose price
     * converts stores the price and the time and notifies every listener;
     * any other frame changes nothing and notifies nobody.
     */
    method HandleWebsocketMessage(frame: Frame, now: real, raising: set<nat>) returns (calls: seq<Notification<L>>)
      requires Valid()
      modifies this
      ensures Valid()
      ensures listeners == old(listeners)
      ensures ExtractPrice(frame).Some? ==>
        && currentPrice == ExtractPrice(frame) && lastUpdateTime == Some(now)
        && |calls| == |listeners|
        && forall i :: 0 <= i < |calls| ==>
             calls[i] == Notification(listeners[i], ExtractPrice(frame).value, i in raising)
      ensures ExtractPrice(frame).None? ==>
        currentPrice == old(currentPrice) && lastUpdateTime == old(lastUpdateTime) && calls == []
    {
      match ExtractPrice(frame)
      case None =>
        calls := [];
      case Some(price) =>
        currentPrice := Some(price);
        lastUpdateTime := Some(now);
        calls := NotifyListeners(price, raising);
    }

    /** The latest accepted price, `None` before the first one. */
    function GetCurrentPrice(): (r: Option<real>)
      reads this
      requires Valid()
      ensures r.None? <==> lastUpdateTime.None?
    {
      currentPrice
    }

    /**
     * Seconds since the latest accepted price; `None` before the first one
     * (and, by Python truthiness, when it arrived at time 0).
     */
    function GetAge(now: real): (r: Option<real>)
      reads this
      ensures r.Some? <==> lastUpdateTime.Some? && lastUpdateTime.value != 0.0
      ensures r.Some? ==> r.value == now - lastUpdateTime.value
    {
      match lastUpdateTime
      case Some(t) => if t != 0.0 then Some(now - t) else None
      case None => None
    }
  }
}
