/**
 * server/handler/auth.go: the login token layout and its validation.
 * HMAC-SHA256 is a parameter `mac` (payload bytes to hex signature), the
 * RFC 3339 parser is a parameter `parseTime` (text to an instant) and the
 * clock is the parameter `now`. The environment is a function from
 * variable names to their values ("" when unset).
 */
module ServerAuth {
  import opened GoStrings

  type Byte = b: int | 0 <= b < 256

  /** The environment, as os.Getenv sees it. */
  type Env = string -> string

  datatype AuthMode = AuthDisabled | AuthOn | AuthFatal

  /**
   * AuthEnabled: on iff FEIKONG_LOGIN_ENABLED is `true` in any letter case;
   * an enabled login with an empty secret stops the process.
   */
  function AuthEnabled(env: Env): (r: AuthMode)
    ensures r.AuthDisabled? <==> ToLower(env("FEIKONG_LOGIN_ENABLED")) != "true"
    ensures r.AuthFatal? <==> ToLower(env("FEIKONG_LOGIN_ENABLED")) == "true" && env("FEIKONG_LOGIN_SECRET") == ""
  {
    if ToLower(env("FEIKONG_LOGIN_ENABLED")) != "true" then AuthDisabled
    else if env("FEIKONG_LOGIN_SECRET") == "" then AuthFatal
    else AuthOn
  }

  /** Neither `True` nor `TRUE` is told apart from `true`. */
  lemma AuthEnabledIgnoresCase(env: Env)
    requires env("FEIKONG_LOGIN_ENABLED") == "TRUE" && env("FEIKONG_LOGIN_SECRET") != ""
    ensures AuthEnabled(env) == AuthOn
  {
    assert ToLower("TRUE") == "true";
  }

  function HexDigit(n: int): (c: char)
    requires 0 <= n < 16
    ensures ('0' <= c <= '9') || ('a' <= c <= 'f')
  {
    if n < 10 then ('0' as int + n) as char else ('a' as int + n - 10) as char
  }

  /** hex.EncodeToString: two lower-case digits per byte. */
  function HexEncode(bs: seq<Byte>): (s: string)
    ensures |s| == 2 * |bs|
    ensures forall k :: 0 <= k < |s| ==> ('0' <= s[k] <= '9') || ('a' <= s[k] <= 'f')
    decreases |bs|
  {
    if |bs| == 0 then "" else [HexDigit(bs[0] / 16), HexDigit(bs[0] % 16)] + HexEncode(bs[1..])
  }

  /** The value of a hex digit in either case, as hex.DecodeString reads it. */
  function HexValue(c: char): (r: Option<int>)
    ensures r.Some? ==> 0 <= r.value < 16
  {
    if '0' <= c <= '9' then Some(c as int - '0' as int)
    else if 'a' <= c <= 'f' then Some(c as int - 'a' as int + 10)
    else if 'A' <= c <= 'F' then Some(c as int - 'A' as int + 10)
    else None
  }

  /** hex.DecodeString: fails on an odd length or a non-hex character. */
  function HexDecode(s: string): (r: Option<seq<Byte>>)
    ensures r.Some? ==> |s| == 2 * |r.value|
    decreases |s|
  {
    if |s| == 0 then Some([])
    else if |s| == 1 then None
    else
      var hi := HexValue(s[0]);
      var lo := HexValue(s[1]);
      var rest := HexDecode(s[2..]);
      if hi.None? || lo.None? || rest.None? then None
      else Some([hi.value * 16 + lo.value] + rest.value)
  }

  lemma {:induction false} HexRoundTrip(bs: seq<Byte>)
    ensures HexDecode(HexEncode(bs)) == Some(bs)
    decreases |bs|
  {
    if |bs| > 0 {
      var s := HexEncode(bs);
      assert s[2..] == HexEncode(bs[1..]);
      HexRoundTrip(bs[1..]);
      assert HexValue(s[0]) == Some(bs[0] / 16);
      assert HexValue(s[1]) == Some(bs[0] % 16);
      assert [bs[0]] + bs[1..] == bs;
    }
  }

  /** splitToken: the parts before and after the last `.`, or nothing without a dot. */
  function SplitToken(token: string): (r: Option<(string, string)>)
    ensures r.None? <==> '.' !in token
    ensures r.Some? ==> r.value.0 + "." + r.value.1 == token && '.' !in r.value.1
  {
    var i := LastIndexChar(token, '.');
    LastIndexCharSpec(token, '.');
    if i < 0 then None
    else
      assert token == token[..i] + "." + token[i + 1..];
      Some((token[..i], token[i + 1..]))
  }

  /** The part before the separator is recovered whenever the part after has no dot. */
  lemma SplitTokenJoin(head: string, tail: string)
    requires '.' !in tail
    ensures SplitToken(head + "." + tail) == Some((head, tail))
  {
    var t := head + "." + tail;
    var i := LastIndexChar(t, '.');
    LastIndexCharSpec(t, '.');
    assert t[|head|] == '.';
    assert i == |head|;
    assert t[..i] == head;
    assert t[i + 1..] == tail;
  }

  /** The payload signed inside a token: username, `|`, expiry text. */
  function Payload(username: seq<Byte>, expiry: seq<Byte>): seq<Byte> {
    username + [124] + expiry
  }

  /** generateToken: hex(payload) `.` signature. */
  function GenerateToken(username: seq<Byte>, expiry: seq<Byte>, mac: seq<Byte> -> string): string {
    HexEncode(Payload(username, expiry)) + "." + mac(Payload(username, expiry))
  }

  /** The last index of `|` (byte 124) in the payload, or -1. */
  function LastBar(p: seq<Byte>): (r: int)
    ensures -1 <= r < |p|
    ensures r >= 0 ==> p[r] == 124 && forall k :: r < k < |p| ==> p[k] != 124
    ensures r < 0 ==> forall k :: 0 <= k < |p| ==> p[k] != 124
    decreases |p|
  {
    if |p| == 0 then -1 else if p[|p| - 1] == 124 then |p| - 1 else LastBar(p[..|p| - 1])
  }

  /**
   * ValidateToken: the signature must match the payload's, and the text
   * after the payload's last `|` must be an instant later than now.
   */
  function ValidateToken(token: string, mac: seq<Byte> -> string,
                         parseTime: seq<Byte> -> Option<int>, now: int): (ok: bool)
    ensures ok ==> (SplitToken(token).Some?
      && HexDecode(SplitToken(token).value.0).Some?
      && mac(HexDecode(SplitToken(token).value.0).value) == SplitToken(token).value.1)
  {
    match SplitToken(token)
    case None => false
    case Some(parts) =>
      match HexDecode(parts.0)
      case None => false
      case Some(payload) =>
        if parts.1 != mac(payload) then false
        else
          var idx := LastBar(payload);
          if idx < 0 then false
          else
            match parseTime(payload[idx + 1..])
            case None => false
            case Some(expiry) => now < expiry
  }

  /** A payload without `|` never validates, whatever its signature. */
  lemma NoBarInvalid(payload: seq<Byte>, mac: seq<Byte> -> string, parseTime: seq<Byte> -> Option<int>, now: int)
    requires forall k :: 0 <= k < |payload| ==> payload[k] != 124
    requires '.' !in mac(payload)
    ensures !ValidateToken(HexEncode(payload) + "." + mac(payload), mac, parseTime, now)
  {
    SplitTokenJoin(HexEncode(payload), mac(payload));
    HexRoundTrip(payload);
  }

  /**
   * A generated token validates exactly while its expiry lies ahead; the
   * username may itself contain `|`, because the expiry is read after the last one.
   */
  lemma GenerateValidate(username: seq<Byte>, expiry: seq<Byte>, mac: seq<Byte> -> string,
                         parseTime: seq<Byte> -> Option<int>, now: int)
    requires forall k :: 0 <= k < |expiry| ==> expiry[k] != 124
    requires '.' !in mac(Payload(username, expiry))
    ensures ValidateToken(GenerateToken(username, expiry, mac), mac, parseTime, now)
        <==> parseTime(expiry).Some? && now < parseTime(expiry).value
  {
    var p := Payload(username, expiry);
    SplitTokenJoin(HexEncode(p), mac(p));
    HexRoundTrip(p);
    PayloadExpiry(username, expiry);
  }

  /** The expiry is what follows the payload's last `|`. */
  lemma PayloadExpiry(username: seq<Byte>, expiry: seq<Byte>)
    requires forall k :: 0 <= k < |expiry| ==> expiry[k] != 124
    ensures LastBar(Payload(username, expiry)) == |username|
    ensures Payload(username, expiry)[|username| + 1..] == expiry
  {
    var p := Payload(username, expiry);
    assert p[|username|] == 124;
    assert forall k :: |username| < k < |p| ==> p[k] == expiry[k - |username| - 1];
  }
}
