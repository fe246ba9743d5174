/**
 * The Digitap credential both the Aadhaar and the cheque services send:
 * the base 64 encoding of the UTF-8 octets of `clientId:clientSecret`, the
 * user-pass form of section 2 of RFC 7617.
 */
module Credentials {
  import opened Common
  import Utf8
  import Base64

  /** `Buffer.from(`${clientId}:${clientSecret}`).toString('base64')` */
  function BasicToken(clientId: string, clientSecret: string): (token: string)
    ensures |token| % 4 == 0
  {
    Base64.Encode(Utf8.Encode(clientId + ":" + clientSecret))
  }

  /** The two halves of a user-pass at its first colon. */
  function SplitUserPass(s: string): Option<(string, string)>
  {
    if |s| == 0 then None
    else if s[0] == ':' then Some(("", s[1..]))
    else match SplitUserPass(s[1..])
      case None => None
      case Some((user, pass)) => Some(([s[0]] + user, pass))
  }

  lemma {:induction false} SplitUserPassJoin(user: string, pass: string)
    requires ':' !in user
    ensures SplitUserPass(user + ":" + pass) == Some((user, pass))
  {
    var s := user + ":" + pass;
    if |user| > 0 {
      assert s[0] == user[0] && s[1..] == user[1..] + ":" + pass;
      assert ':' !in user[1..];
      SplitUserPassJoin(user[1..], pass);
      assert [user[0]] + user[1..] == user;
    } else {
      assert s[1..] == pass;
    }
  }

  /**
   * The receiving side recovers the credentials from the token: decoding
   * the base 64, then the UTF-8, then splitting at the first colon gives
   * back the client id and the secret whenever the id has no colon.
   */
  lemma TokenRecoversCredentials(clientId: string, clientSecret: string)
    requires ':' !in clientId
    ensures Base64.Decode(BasicToken(clientId, clientSecret)).Some?
    ensures Utf8.Decode(Base64.Decode(BasicToken(clientId, clientSecret)).value) == Some(clientId + ":" + clientSecret)
    ensures SplitUserPass(clientId + ":" + clientSecret) == Some((clientId, clientSecret))
  {
    Base64.DecodeEncode(Utf8.Encode(clientId + ":" + clientSecret));
    Utf8.DecodeEncode(clientId + ":" + clientSecret);
    SplitUserPassJoin(clientId, clientSecret);
  }

  /** Different credentials give different tokens. */
  lemma TokenInjective(id1: string, secret1: string, id2: string, secret2: string)
    requires ':' !in id1 && ':' !in id2
    requires BasicToken(id1, secret1) == BasicToken(id2, secret2)
    ensures id1 == id2 && secret1 == secret2
  {
    TokenRecoversCredentials(id1, secret1);
    TokenRecoversCredentials(id2, secret2);
  }

  /** Without that condition the token is ambiguous: a colon can move between the id and the secret. */
  lemma ColonInIdCollides()
    ensures BasicToken("a:b", "c") == BasicToken("a", "b:c")
    ensures ("a:b", "c") != ("a", "b:c")
  {
    assert "a:b" + ":" + "c" == "a" + ":" + "b:c";
  }
}
