/** The root credential the protocol handshake checks, split out of the
    `user:secret` startup setting. */
module Credentials {
  import opened GoStrings

  /** `strings.SplitN(root, ":", 2)`, padded with an empty secret when there
      is no colon: always a user and a secret. */
  function RootCredentials(root: string): (parts: seq<string>)
    ensures |parts| == 2
    ensures ':' !in root ==> parts == [root, ""]
    ensures ':' in root ==> ':' !in parts[0] && parts[0] + ":" + parts[1] == root
  {
    var parts := SplitN2(root, ':');
    if |parts| < 2 then parts + [""] else parts
  }

  /** The split is the inverse of joining with a colon: the user is the text
      before the first colon and the secret all the rest, later colons included. */
  lemma RootCredentialsInvertJoin(user: string, secret: string)
    requires ':' !in user
    ensures RootCredentials(user + ":" + secret) == [user, secret]
  {
    var root := user + ":" + secret;
    var i := IndexOf(root, ':');
    assert root[|user|] == ':';
    assert i == |user|;
    assert root[..i] == user && root[i + 1..] == secret;
  }
}
