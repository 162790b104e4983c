/**
 * The decision of the `/api/send` endpoint: refuse while the service is not connected, and
 * otherwise address the message to the recipient id built from the digits of `number`.
 */
module SendApi {
  import opened Wrappers

  /** The server suffix of a personal chat id. */
  const JidSuffix: string := "@s.whatsapp.net"

  /** The characters the regular expression class `\d` matches: the ASCII digits `0`-`9`. */
  predicate IsDigit(c: char) {
    '0' <= c <= '9'
  }

  predicate AllDigits(s: string) {
    forall i :: 0 <= i < |s| ==> IsDigit(s[i])
  }

  /** `s.replace(/\D/g, '')`: `s` with every non-digit character removed. */
  function DigitsOnly(s: string): (r: string)
    ensures AllDigits(r)
    ensures |r| <= |s|
  {
    if s == [] then []
    else (if IsDigit(s[0]) then [s[0]] else []) + DigitsOnly(s[1..])
  }

  /**
   * `number.replace(/\D/g, '') + '@s.whatsapp.net'`: the id ends with the server suffix and its
   * user part, the leading run of digits, is exactly the digits of `number`.
   */
  function Jid(number: string): (j: string)
    ensures |j| == |DigitsOnly(number)| + |JidSuffix|
    ensures j[|DigitsOnly(number)|..] == JidSuffix
    ensures UserPart(j) == DigitsOnly(number)
  {
    UserPartOfDigits(DigitsOnly(number), JidSuffix);
    DigitsOnly(number) + JidSuffix
  }

  /** `r` is `s` with some characters left out, the rest in their original order. */
  predicate IsSubsequence(r: string, s: string) {
    if r == [] then true
    else if s == [] then false
    else if r[0] == s[0] then IsSubsequence(r[1..], s[1..])
    else IsSubsequence(r, s[1..])
  }

  /** Removing the non-digits keeps the rest in order. */
  lemma {:induction false} DigitsOnlyIsSubsequence(s: string)
    ensures IsSubsequence(DigitsOnly(s), s)
  {
    if s != [] {
      DigitsOnlyIsSubsequence(s[1..]);
      if IsDigit(s[0]) {
        assert DigitsOnly(s) == [s[0]] + DigitsOnly(s[1..]);
        assert DigitsOnly(s)[1..] == DigitsOnly(s[1..]);
      } else {
        assert DigitsOnly(s) == DigitsOnly(s[1..]);
      }
    }
  }

  /** Every digit of `s` survives, as often as it occurs, and nothing else does. */
  lemma {:induction false} DigitsOnlyCounts(s: string, c: char)
    ensures multiset(DigitsOnly(s))[c] == if IsDigit(c) then multiset(s)[c] else 0
  {
    if s != [] {
      DigitsOnlyCounts(s[1..], c);
      assert s == [s[0]] + s[1..];
      assert multiset(s) == multiset([s[0]]) + multiset(s[1..]);
      var head := if IsDigit(s[0]) then [s[0]] else [];
      assert multiset(DigitsOnly(s)) == multiset(head) + multiset(DigitsOnly(s[1..]));
    }
  }

  /** A number that is already all digits is used unchanged. */
  lemma {:induction false} DigitsOnlyKeepsDigits(s: string)
    requires AllDigits(s)
    ensures DigitsOnly(s) == s
  {
    if s != [] {
      DigitsOnlyKeepsDigits(s[1..]);
    }
  }

  /** Cleaning a number twice is the same as cleaning it once. */
  lemma DigitsOnlyIdempotent(s: string)
    ensures DigitsOnly(DigitsOnly(s)) == DigitsOnly(s)
  {
    DigitsOnlyKeepsDigits(DigitsOnly(s));
  }

  /** The cleaning works piecewise: cleaning a concatenation concatenates the cleaned parts. */
  lemma {:induction false} DigitsOnlyAppend(a: string, b: string)
    ensures DigitsOnly(a + b) == DigitsOnly(a) + DigitsOnly(b)
  {
    if a != [] {
      assert (a + b)[0] == a[0];
      assert (a + b)[1..] == a[1..] + b;
      DigitsOnlyAppend(a[1..], b);
    } else {
      assert a + b == b;
    }
  }

  /** The user part of a chat id: its longest prefix of digits. */
  function UserPart(jid: string): string {
    if jid == [] || !IsDigit(jid[0]) then [] else [jid[0]] + UserPart(jid[1..])
  }

  lemma {:induction false} UserPartOfDigits(d: string, rest: string)
    requires AllDigits(d)
    requires rest != [] && !IsDigit(rest[0])
    ensures UserPart(d + rest) == d
  {
    if d == [] {
      assert d + rest == rest;
    } else {
      assert (d + rest)[1..] == d[1..] + rest;
      UserPartOfDigits(d[1..], rest);
    }
  }

  /** The answer of `/api/send`. */
  datatype SendResponse =
    | Unavailable            // 503: not connected or no socket
    | Accepted(jid: string)  // 200: handed to the socket, not awaited
    | ServerError            // 500: the handler threw

  function StatusCode(r: SendResponse): int {
    match r
    case Unavailable => 503
    case Accepted(_) => 200
    case ServerError => 500
  }

  /**
   * The decision for a request with body field `number` (`None` when it is missing or is not
   * a string, which makes `number.replace` throw), given the connection flag and whether a
   * socket exists.
   */
  function SendDecision(isConnected: bool, hasSocket: bool, number: Option<string>): (r: SendResponse)
    ensures StatusCode(r) == 503 <==> !isConnected || !hasSocket
    ensures r.Accepted? <==> isConnected && hasSocket && number.Some?
    ensures r.Accepted? ==> r.jid == DigitsOnly(number.value) + JidSuffix
    ensures r.Accepted? ==> UserPart(r.jid) == DigitsOnly(number.value) && AllDigits(UserPart(r.jid))
    ensures r.Accepted? ==> |r.jid| >= |JidSuffix| && r.jid[|r.jid| - |JidSuffix|..] == JidSuffix
  {
    if !isConnected || !hasSocket then Unavailable
    else match number
      case None => ServerError
      case Some(n) => Accepted(Jid(n))
  }
}
