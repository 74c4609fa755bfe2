/** The signed state that carries an email sign-in through the provider and back. */
module OAuthState {
  import opened Basics
  import opened Base64Url

  datatype Payload = Payload(organizationId: int, userId: int, provider: string, nonce: string, expiresAt: int)

  /** What the state rests on: a signing key, if one is configured, a keyed hash and a serialisation. */
  datatype Crypto = Crypto(
    key: Option<seq<byte>>,
    mac: (seq<byte>, string) -> seq<byte>,
    marshal: Payload -> Option<seq<byte>>,
    unmarshal: seq<byte> -> Option<Payload>)

  const SECOND := 1_000_000_000
  const TTL := 600 * SECOND

  /** Whole seconds of a clock reading in nanoseconds. */
  function Unix(now: int): int {
    now / SECOND
  }

  function Sign(c: Crypto, payloadPart: string): Option<string> {
    match c.key
    case None => None
    case Some(key) => Some(Encode(c.mac(key, payloadPart)))
  }

  function NewState(c: Crypto, organizationId: int, userId: int, provider: string, nonce: Option<seq<byte>>, now: int)
    : Option<string>
  {
    if nonce.None? then None
    else
      var payload := Payload(organizationId, userId, provider, Encode(nonce.value), Unix(now + TTL));
      match c.marshal(payload)
      case None => None
      case Some(raw) =>
        match Sign(c, Encode(raw))
        case None => None
        case Some(signature) => Some(Encode(raw) + "." + signature)
  }

  /** `strings.Cut` at the first '.'. */
  function Cut(s: string): Option<(string, string)> {
    if s == "" then None
    else if s[0] == '.' then Some(("", s[1..]))
    else
      match Cut(s[1..])
      case None => None
      case Some((before, after)) => Some(([s[0]] + before, after))
  }

  function VerifyState(c: Crypto, value: string, now: int): Option<Payload> {
    match Cut(value)
    case None => None
    case Some((payloadPart, signature)) =>
      if payloadPart == "" || signature == "" || Sign(c, payloadPart) != Some(signature) then None
      else
        match Decode(payloadPart)
        case None => None
        case Some(raw) =>
          match c.unmarshal(raw)
          case None => None
          case Some(p) =>
            if p.organizationId <= 0 || p.userId <= 0 || p.provider == "" || p.expiresAt < Unix(now) then None
            else Some(p)
  }

  lemma {:induction false} CutAtFirst(before: string, after: string)
    requires '.' !in before
    ensures Cut(before + "." + after) == Some((before, after))
  {
    if before == "" {
      assert (before + "." + after)[1..] == after;
    } else {
      CutAtFirst(before[1..], after);
      assert before[0] in before && [before[0]] + before[1..] == before;
      assert (before + "." + after)[1..] == before[1..] + "." + after;
    }
  }

  lemma {:induction false} CutFinds(s: string)
    ensures match Cut(s)
            case None => '.' !in s
            case Some((before, after)) => s == before + "." + after && '.' !in before
  {
    if s != "" && s[0] != '.' {
      CutFinds(s[1..]);
    }
  }

  ghost predicate Usable(c: Crypto) {
    c.key.Some? && forall m :: c.mac(c.key.value, m) != []
  }

  /** The payload survives serialisation. */
  predicate Serializes(c: Crypto, p: Payload) {
    c.marshal(p).Some? && c.marshal(p).value != [] && c.unmarshal(c.marshal(p).value) == Some(p)
  }

  /** A clock reading in nanoseconds, rounded down to seconds. */
  function Seconds(nanos: int): int {
    nanos / 1_000_000_000
  }

  lemma UnixIsSeconds(now: int)
    ensures Unix(now) == Seconds(now)
  {
  }

  lemma NewStateIs(c: Crypto, organizationId: int, userId: int, provider: string, nonce: seq<byte>, now: int,
                   p: Payload, raw: seq<byte>)
    requires c.key.Some? && p == Payload(organizationId, userId, provider, Encode(nonce), Unix(now + TTL))
    requires c.marshal(p) == Some(raw)
    ensures NewState(c, organizationId, userId, provider, Some(nonce), now)
         == Some(Encode(raw) + "." + Encode(c.mac(c.key.value, Encode(raw))))
  {
  }

  lemma SignedVerifies(c: Crypto, p: Payload, raw: seq<byte>, later: int)
    requires Usable(c) && raw != [] && c.unmarshal(raw) == Some(p)
    ensures VerifyState(c, Encode(raw) + "." + Encode(c.mac(c.key.value, Encode(raw))), later)
         == if p.organizationId > 0 && p.userId > 0 && p.provider != "" && Unix(later) <= p.expiresAt
            then Some(p) else None
  {
    var part := Encode(raw);
    var signature := Encode(c.mac(c.key.value, part));
    DecodeEncode(raw);
    DecodeEncode(c.mac(c.key.value, part));
    CutAtFirst(part, signature);
  }

  /**
   * A state minted for an organization, user and provider verifies to exactly that payload at every clock
   * reading up to and including its last second, and at none after it.
   */
  lemma MintedStateVerifies(
    c: Crypto, organizationId: int, userId: int, provider: string, nonce: seq<byte>, now: int, later: int)
    requires Usable(c)
    requires Serializes(c, Payload(organizationId, userId, provider, Encode(nonce), Seconds(now) + 600))
    ensures var p := Payload(organizationId, userId, provider, Encode(nonce), Seconds(now) + 600);
            var state := NewState(c, organizationId, userId, provider, Some(nonce), now);
            && state.Some?
            && VerifyState(c, state.value, later)
                 == if organizationId > 0 && userId > 0 && provider != ""
                       && Seconds(later) <= Seconds(now) + 600
                    then Some(p) else None
  {
    UnixIsSeconds(now);
    UnixIsSeconds(later);
    UnixIsSeconds(now + TTL);
    var p := Payload(organizationId, userId, provider, Encode(nonce), Seconds(now) + 600);
    var raw := c.marshal(p).value;
    NewStateIs(c, organizationId, userId, provider, nonce, now, p, raw);
    SignedVerifies(c, p, raw, later);
  }

  /**
   * Nothing else is accepted: the text is a payload part without '.', one '.', and the encoded keyed hash of that
   * very payload part, so for each payload part there is exactly one accepted state.
   */
  lemma AcceptedIsSigned(c: Crypto, value: string, now: int)
    requires VerifyState(c, value, now).Some?
    ensures c.key.Some?
    ensures exists part ::
              && '.' !in part && value == part + "." + Encode(c.mac(c.key.value, part))
              && Decode(part).Some? && c.unmarshal(Decode(part).value) == VerifyState(c, value, now)
    ensures var p := VerifyState(c, value, now).value;
            p.organizationId > 0 && p.userId > 0 && p.provider != "" && Seconds(now) <= p.expiresAt
  {
    UnixIsSeconds(now);
    CutFinds(value);
    var part := Cut(value).value.0;
    assert '.' !in part && value == part + "." + Encode(c.mac(c.key.value, part));
  }
}
