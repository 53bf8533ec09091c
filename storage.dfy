/** The session store: the access and refresh tokens in the platform's
    secure key-value store, the profile blob in the general key-value store.
    Writes that fail raise an error with a fixed message; reads and deletes
    that fail are swallowed (a read then reports "absent"). */
module Storage {
  import opened Common

  const TOKEN_KEY := "auth_token"
  const REFRESH_TOKEN_KEY := "refresh_token"
  const USER_KEY := "user_data"

  const TOKEN_WRITE_ERROR := "Failed to store authentication token"
  const REFRESH_TOKEN_WRITE_ERROR := "Failed to store refresh token"
  const USER_WRITE_ERROR := "Failed to store user data"

  /** Which platform calls reject: for each of the three keys, its write, its
      read and its delete (each key is written, read and deleted by a call of
      its own). A rejected write or delete leaves its store as it was. */
  datatype Faults = Faults(
    tokenSet: bool, tokenGet: bool, tokenDelete: bool,
    refreshSet: bool, refreshGet: bool, refreshDelete: bool,
    userSet: bool, userGet: bool, userDelete: bool)

  /** `JSON.stringify` and `JSON.parse` on profiles; `parse` yields None when
      the text does not decode to a profile (decoding throws, or gives null). */
  datatype Codec = Codec(stringify: User -> string, parse: string -> Option<User>)

  /** A codec whose encodings decode back and are never empty. */
  ghost predicate Lawful(c: Codec)
  {
    forall u: User :: c.parse(c.stringify(u)) == Some(u) && c.stringify(u) != ""
  }

  function Lookup(m: map<string, string>, k: string): Option<string>
  {
    if k in m then Some(m[k]) else None
  }

  /** The secure store after `clearAuth`: each token gone unless its own
      delete rejects, nothing else touched. */
  function ClearedSecure(m: map<string, string>, f: Faults): (r: map<string, string>)
    ensures f.tokenDelete ==> Lookup(r, TOKEN_KEY) == Lookup(m, TOKEN_KEY)
    ensures !f.tokenDelete ==> TOKEN_KEY !in r
    ensures f.refreshDelete ==> Lookup(r, REFRESH_TOKEN_KEY) == Lookup(m, REFRESH_TOKEN_KEY)
    ensures !f.refreshDelete ==> REFRESH_TOKEN_KEY !in r
    ensures forall k :: k != TOKEN_KEY && k != REFRESH_TOKEN_KEY ==> Lookup(r, k) == Lookup(m, k)
  {
    var withoutToken := if f.tokenDelete then m else m - {TOKEN_KEY};
    if f.refreshDelete then withoutToken else withoutToken - {REFRESH_TOKEN_KEY}
  }

  /** The general store after `clearAuth`: the profile gone, nothing else touched. */
  function ClearedGeneral(m: map<string, string>, f: Faults): (r: map<string, string>)
    ensures f.userDelete ==> r == m
    ensures !f.userDelete ==> USER_KEY !in r
    ensures forall k :: k != USER_KEY ==> Lookup(r, k) == Lookup(m, k)
  {
    if f.userDelete then m else m - {USER_KEY}
  }

  /** Clearing twice is clearing once. */
  lemma ClearIdempotent(s: map<string, string>, g: map<string, string>, f: Faults)
    ensures ClearedSecure(ClearedSecure(s, f), f) == ClearedSecure(s, f)
    ensures ClearedGeneral(ClearedGeneral(g, f), f) == ClearedGeneral(g, f)
  {
  }

  class SessionStore {
    var secure: map<string, string>
    var general: map<string, string>
    const faults: Faults
    const codec: Codec

    constructor (secure: map<string, string>, general: map<string, string>, faults: Faults, codec: Codec)
      ensures this.secure == secure && this.general == general
      ensures this.faults == faults && this.codec == codec
    {
      this.secure := secure;
      this.general := general;
      this.faults := faults;
      this.codec := codec;
    }

    /** The stores have been cleared, starting from `s0` and `g0`. */
    predicate ClearedFrom(s0: map<string, string>, g0: map<string, string>)
      reads this
    {
      secure == ClearedSecure(s0, faults) && general == ClearedGeneral(g0, faults)
    }

    method SetToken(token: string) returns (r: Outcome<Thrown>)
      modifies this`secure
      ensures faults.tokenSet ==> r == Fail(ErrorObject(TOKEN_WRITE_ERROR)) && secure == old(secure)
      ensures !faults.tokenSet ==> r == Pass && secure == old(secure)[TOKEN_KEY := token]
      ensures r.Pass? && !faults.tokenGet ==> GetToken() == Some(token)
      ensures GetRefreshToken() == old(GetRefreshToken()) && GetUser() == old(GetUser())
    {
      if faults.tokenSet {
        r := Fail(ErrorObject(TOKEN_WRITE_ERROR));
      } else {
        secure := secure[TOKEN_KEY := token];
        r := Pass;
      }
    }

    /** Never raises: a failed read is reported as absent. */
    function GetToken(): (t: Option<string>)
      reads this
      ensures t.Some? <==> !faults.tokenGet && TOKEN_KEY in secure
      ensures t.Some? ==> t.value == secure[TOKEN_KEY]
    {
      if faults.tokenGet then None else Lookup(secure, TOKEN_KEY)
    }

    /** Never raises; afterwards the token is absent unless the delete failed. */
    method RemoveToken()
      modifies this`secure
      ensures secure == if faults.tokenDelete then old(secure) else old(secure) - {TOKEN_KEY}
      ensures !faults.tokenDelete ==> GetToken() == None
      ensures GetRefreshToken() == old(GetRefreshToken()) && GetUser() == old(GetUser())
    {
      if !faults.tokenDelete {
        secure := secure - {TOKEN_KEY};
      }
    }

    method SetRefreshToken(token: string) returns (r: Outcome<Thrown>)
      modifies this`secure
      ensures faults.refreshSet ==> r == Fail(ErrorObject(REFRESH_TOKEN_WRITE_ERROR)) && secure == old(secure)
      ensures !faults.refreshSet ==> r == Pass && secure == old(secure)[REFRESH_TOKEN_KEY := token]
      ensures r.Pass? && !faults.refreshGet ==> GetRefreshToken() == Some(token)
      ensures GetToken() == old(GetToken()) && GetUser() == old(GetUser())
    {
      if faults.refreshSet {
        r := Fail(ErrorObject(REFRESH_TOKEN_WRITE_ERROR));
      } else {
        secure := secure[REFRESH_TOKEN_KEY := token];
        r := Pass;
      }
    }

    function GetRefreshToken(): (t: Option<string>)
      reads this
      ensures t.Some? <==> !faults.refreshGet && REFRESH_TOKEN_KEY in secure
      ensures t.Some? ==> t.value == secure[REFRESH_TOKEN_KEY]
    {
      if faults.refreshGet then None else Lookup(secure, REFRESH_TOKEN_KEY)
    }

    method RemoveRefreshToken()
      modifies this`secure
      ensures secure == if faults.refreshDelete then old(secure) else old(secure) - {REFRESH_TOKEN_KEY}
      ensures !faults.refreshDelete ==> GetRefreshToken() == None
      ensures GetToken() == old(GetToken()) && GetUser() == old(GetUser())
    {
      if !faults.refreshDelete {
        secure := secure - {REFRESH_TOKEN_KEY};
      }
    }

    /** Stores the encoded profile; with a lawful codec it reads back as stored. */
    method SetUser(user: User) returns (r: Outcome<Thrown>)
      modifies this`general
      ensures faults.userSet ==> r == Fail(ErrorObject(USER_WRITE_ERROR)) && general == old(general)
      ensures !faults.userSet ==> r == Pass && general == old(general)[USER_KEY := codec.stringify(user)]
      ensures r.Pass? && !faults.userGet && Lawful(codec) ==> GetUser() == Some(user)
      ensures GetToken() == old(GetToken()) && GetRefreshToken() == old(GetRefreshToken())
    {
      if faults.userSet {
        r := Fail(ErrorObject(USER_WRITE_ERROR));
      } else {
        general := general[USER_KEY := codec.stringify(user)];
        r := Pass;
      }
    }

    /** Never raises: absent when the read fails, when nothing or the empty
        string is stored, or when the stored text does not decode. */
    function GetUser(): (u: Option<User>)
      reads this
      ensures faults.userGet || USER_KEY !in general || general[USER_KEY] == "" ==> u == None
      ensures !faults.userGet && USER_KEY in general && general[USER_KEY] != "" ==>
        u == codec.parse(general[USER_KEY])
    {
      if faults.userGet then None
      else match Lookup(general, USER_KEY)
        case None => None
        case Some(text) => if text == "" then None else codec.parse(text)
    }

    method RemoveUser()
      modifies this`general
      ensures general == if faults.userDelete then old(general) else old(general) - {USER_KEY}
      ensures !faults.userDelete ==> GetUser() == None
      ensures GetToken() == old(GetToken()) && GetRefreshToken() == old(GetRefreshToken())
    {
      if !faults.userDelete {
        general := general - {USER_KEY};
      }
    }

    /** Never raises; removes the three session keys, each unless its own
        delete rejects, and no other key. */
    method ClearAuth()
      modifies this`secure, this`general
      ensures ClearedFrom(old(secure), old(general))
      ensures !faults.tokenDelete ==> GetToken() == None
      ensures !faults.refreshDelete ==> GetRefreshToken() == None
      ensures !faults.userDelete ==> GetUser() == None
    {
      RemoveToken();
      RemoveRefreshToken();
      RemoveUser();
    }

    /** True exactly when a token reads back, whatever the stored profile. */
    function IsAuthenticated(): (b: bool)
      reads this
      ensures b <==> GetToken().Some?
      ensures b ==> !faults.tokenGet && TOKEN_KEY in secure
    {
      GetToken() != None
    }
  }
}
