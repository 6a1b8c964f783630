/** The public SOS page: the person-count input, read with
    `parseInt(value) || 0`, and the handler that locates the user and posts
    the alert. */
module SosPage {
  import opened Common
  import Sos

  predicate IsDigit(c: char) { '0' <= c <= '9' }

  predicate IsSpace(c: char) { c == ' ' || c == '\t' || c == '\n' || c == '\r' }

  /** The input with its leading white space dropped. */
  function TrimStart(s: string): (t: string)
    ensures |t| <= |s|
    ensures forall c :: c in t ==> c in s
    ensures t != [] ==> !IsSpace(t[0])
  {
    if s != [] && IsSpace(s[0]) then TrimStart(s[1..]) else s
  }

  /** The length of the run of decimal digits `s` starts with. */
  function DigitRun(s: string): (n: nat)
    ensures n <= |s|
    ensures forall i :: 0 <= i < n ==> IsDigit(s[i])
    ensures n < |s| ==> !IsDigit(s[n])
  {
    if s == [] || !IsDigit(s[0]) then 0 else 1 + DigitRun(s[1..])
  }

  function DigitValue(c: char): (d: nat)
    requires IsDigit(c)
    ensures d < 10
  {
    assert '0' as int <= c as int <= '9' as int;
    c as int - '0' as int
  }

  /** The number a string of decimal digits denotes. */
  function DigitsValue(ds: string): (v: nat)
    requires forall i :: 0 <= i < |ds| ==> IsDigit(ds[i])
  {
    if ds == [] then 0
    else DigitsValue(ds[..|ds| - 1]) * 10 + DigitValue(ds[|ds| - 1])
  }

  /** `parseInt(s)` in base 10: leading white space, an optional sign, then
      the longest run of digits; `None` stands for NaN, when there is no
      digit where the number should start. */
  function ParseInt(s: string): (r: Option<int>)
  {
    var t := TrimStart(s);
    var negative := t != [] && t[0] == '-';
    var rest := if t != [] && (t[0] == '-' || t[0] == '+') then t[1..] else t;
    var n := DigitRun(rest);
    if n == 0 then None
    else
      var v: int := DigitsValue(rest[..n]);
      Some(if negative then -v else v)
  }

  /** The person count the input yields: `parseInt(value) || 0`. NaN and
      zero both become 0, so input with no digit at all gives 0. */
  function ParseIntOrZero(s: string): (r: int)
    ensures (forall i :: 0 <= i < |s| ==> !IsDigit(s[i])) ==> r == 0
  {
    var t := TrimStart(s);
    var rest := if t != [] && (t[0] == '-' || t[0] == '+') then t[1..] else t;
    assert forall c :: c in rest ==> c in s;
    assert rest != [] ==> rest[0] in s;
    var p := ParseInt(s);
    if p.None? then 0 else p.value
  }

  function Digit(d: nat): (c: char)
    requires d < 10
    ensures IsDigit(c) && DigitValue(c) == d
  {
    ('0' as int + d) as char
  }

  /** The decimal notation of a natural number. */
  function ShowNat(n: nat): (s: string)
    ensures s != [] && forall i :: 0 <= i < |s| ==> IsDigit(s[i])
  {
    if n < 10 then [Digit(n)] else ShowNat(n / 10) + [Digit(n % 10)]
  }

  lemma {:induction false} ShowNatValue(n: nat)
    ensures DigitsValue(ShowNat(n)) == n
  {
    var s := ShowNat(n);
    if n < 10 {
      assert s[..0] == [];
    } else {
      ShowNatValue(n / 10);
      assert s[..|s| - 1] == ShowNat(n / 10);
    }
  }

  /** Reading a count typed in decimal gives that count back. */
  lemma ParseShowNat(n: nat)
    ensures ParseIntOrZero(ShowNat(n)) == n
  {
    var s := ShowNat(n);
    ShowNatValue(n);
    assert TrimStart(s) == s;
    assert DigitRun(s) == |s|;
    assert s[..|s|] == s;
  }

  /** A typed negative count reads as negative, and the handler rejects
      it. */
  lemma ParseShowNegative(n: nat)
    ensures ParseIntOrZero("-" + ShowNat(n)) == -(n as int)
  {
    var s := ShowNat(n);
    var t := "-" + s;
    ShowNatValue(n);
    assert TrimStart(t) == t;
    assert t[1..] == s;
    assert DigitRun(s) == |s|;
    assert s[..|s|] == s;
  }

  /** The page's state. */
  class SosAlertPage {
    var loading: bool
    var userCoordinates: Option<Point>
    var persons: int

    constructor ()
      ensures !loading && userCoordinates.None? && persons == 1
    {
      loading := false;
      userCoordinates := None;
      persons := 1;
    }

    /** The input's change handler. */
    method SetPersons(input: string)
      modifies this
      ensures persons == ParseIntOrZero(input)
      ensures loading == old(loading) && userCoordinates == old(userCoordinates)
    {
      persons := ParseIntOrZero(input);
    }

    /** handleSOS. A count of at most 0 is rejected before anything else.
        Otherwise the page is loading until geolocation is found missing,
        fails (`position` is `None`), or yields a position, which is stored
        and posted with the count; whether the post succeeds only changes
        the message shown. */
    method HandleSos(geoSupported: bool, position: Option<Point>)
      returns (request: Option<(real, real, int)>)
      modifies this
      ensures old(persons) <= 0 ==> request.None? && unchanged(this)
      ensures old(persons) > 0 ==> !loading
      ensures request.Some? <==> old(persons) > 0 && geoSupported && position.Some?
      ensures request.Some? ==>
        request.value == (position.value.latitude, position.value.longitude, old(persons))
      ensures request.Some? ==> request.value.2 > 0
      ensures userCoordinates == (if request.Some? then position else old(userCoordinates))
      ensures persons == old(persons)
    {
      if persons <= 0 {
        return None;
      }
      loading := true;
      if !geoSupported {
        loading := false;
        return None;
      }
      if position.None? {
        loading := false;
        return None;
      }
      userCoordinates := position;
      request := Some((position.value.latitude, position.value.longitude, persons));
      loading := false;
    }
  }

  /** A count the page lets through is stored unchanged by the server, whose
      default of 1 applies only to a count of 0. */
  lemma SentCountIsStored(id: int, persons: int, latitude: real, longitude: real,
                          caller: Option<int>, now: int)
    requires persons > 0
    ensures Sos.NewAlert(id, persons, latitude, longitude, caller, now).persons == Some(persons)
  {
  }
}
