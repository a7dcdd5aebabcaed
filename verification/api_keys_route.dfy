/**
 * The key-management endpoint (blingo/app/api/api-keys/route.ts): who is asking (the signed-in
 * session, cross-checked with the client's `X-User-Email` header), listing that user's keys,
 * and creating a key with a fresh random value and a chosen name.
 *
 * The session, the store's answers (whether it is configured, the user row it finds or
 * creates, the listing, the insert) and today's default key name are inputs. The random
 * characters of a new key are chosen nondeterministically from the key alphabet.
 */
module ApiKeysRoute {
  import opened Wrappers
  import opened Text

  /** The 62 characters a key is made of: "A" to "Z", then "a" to "z", then "0" to "9". */
  const KeyAlphabet: string := CharRange('A', 26) + CharRange('a', 26) + CharRange('0', 10)

  const KeyPrefix: string := "blingo-"

  /** How many random characters follow the prefix. */
  const KeyBodyLength: nat := 32

  /** The shape of every generated key: the prefix, then 32 characters of the alphabet. */
  predicate IsGeneratedKey(key: string) {
    |key| == |KeyPrefix| + KeyBodyLength && StartsWith(key, KeyPrefix)
    && forall i :: |KeyPrefix| <= i < |key| ==> key[i] in KeyAlphabet
  }

  /** The `n` consecutive characters from `lo` on. */
  function CharRange(lo: char, n: nat): (r: string)
    requires lo as int + n <= 0xD800
    ensures |r| == n && forall i :: 0 <= i < n ==> r[i] as int == lo as int + i
  {
    seq(n, i requires 0 <= i < n => (lo as int + i) as char)
  }

  /** The alphabet has 62 characters, each an ASCII letter or digit, none of them whitespace. */
  lemma KeyAlphabetIsAlphanumeric()
    ensures |KeyAlphabet| == 62
    ensures KeyAlphabet[0] == 'A' && KeyAlphabet[26] == 'a' && KeyAlphabet[52] == '0' && KeyAlphabet[61] == '9'
    ensures forall i :: 0 <= i < |KeyAlphabet| ==>
      ('A' <= KeyAlphabet[i] <= 'Z') || ('a' <= KeyAlphabet[i] <= 'z') || ('0' <= KeyAlphabet[i] <= '9')
    ensures forall i :: 0 <= i < |KeyAlphabet| ==> !IsJsWhitespace(KeyAlphabet[i])
  {
  }

  /** generateApiKey: 32 random draws from the alphabet after the prefix; length 39 in all. */
  method GenerateApiKey() returns (key: string)
    ensures IsGeneratedKey(key)
    ensures |key| == 39
  {
    var body := "";
    for i := 0 to KeyBodyLength
      invariant |body| == i
      invariant forall k :: 0 <= k < |body| ==> body[k] in KeyAlphabet
    {
      var pick :| 0 <= pick < |KeyAlphabet|;
      body := body + [KeyAlphabet[pick]];
    }
    key := KeyPrefix + body;
    assert forall i :: |KeyPrefix| <= i < |key| ==> key[i] == body[i - |KeyPrefix|];
  }

  // ---------------------------------------------------------------- who is asking

  /** The signed-in session's user, each field possibly missing. */
  datatype SessionUser = SessionUser(email: Option<string>, name: Option<string>, image: Option<string>)

  /** The result of getAuthenticatedUserEmail. */
  datatype Identity = Identity(email: Option<string>, name: Option<string>, image: Option<string>, error: Option<string>)

  const SignInMessage: string := "Unauthorized - Please sign in"
  const MismatchMessage: string := "Unauthorized - Session mismatch"

  function Truthy(s: Option<string>): bool {
    s.Some? && s.value != ""
  }

  /**
   * getAuthenticatedUserEmail: the session is the source of truth; the header, when given,
   * must agree with it. `session` is `None` when nobody is signed in.
   */
  function GetAuthenticatedUserEmail(session: Option<SessionUser>, headerEmail: Option<string>): (r: Identity)
    ensures r.error.None? <==> r.email.Some?
    ensures r.email.Some? ==> session.Some? && r.email == session.value.email && r.email.value != ""
    // no session email: refused, whatever the header says
    ensures !(session.Some? && Truthy(session.value.email)) ==> r == Identity(None, None, None, Some(SignInMessage))
    // a header that disagrees with the session is refused
    ensures session.Some? && Truthy(session.value.email) && Truthy(headerEmail) && headerEmail != session.value.email ==>
      r == Identity(None, None, None, Some(MismatchMessage))
    // an absent (or empty) header is accepted
    ensures session.Some? && Truthy(session.value.email) && (!Truthy(headerEmail) || headerEmail == session.value.email) ==>
      r.email == session.value.email
      && r.name == (if Truthy(session.value.name) then session.value.name else None)
      && r.image == (if Truthy(session.value.image) then session.value.image else None)
  {
    if session.None? || !Truthy(session.value.email) then Identity(None, None, None, Some(SignInMessage))
    else
      var user := session.value;
      if Truthy(headerEmail) && headerEmail != user.email then Identity(None, None, None, Some(MismatchMessage))
      else Identity(user.email,
                    if Truthy(user.name) then user.name else None,
                    if Truthy(user.image) then user.image else None,
                    None)
  }

  // ---------------------------------------------------------------- the handlers

  /** A key row as the store returns it. */
  datatype KeyRow = KeyRow(id: string, name: string, key: string, usage: int, createdAt: string)

  /** The record a POST inserts. */
  datatype NewKey = NewKey(userId: string, name: string, key: string, usage: int)

  datatype ReplyBody = ErrorBody(error: string) | KeyList(data: seq<KeyRow>) | CreatedKey(row: KeyRow)

  datatype Reply = Reply(status: int, body: ReplyBody)

  /** What the store does for one request: whether it exists, and the user row it finds or creates. */
  datatype Store = Store(configured: bool, userId: Option<string>)

  /** The 401 every handler gives when the requester is not established. */
  function AuthFailure(id: Identity): (r: Option<Reply>)
    ensures r.None? <==> !Truthy(id.error) && Truthy(id.email)
    ensures r.Some? ==> r.value.status == 401 && r.value.body.ErrorBody?
    ensures r.Some? && Truthy(id.error) ==> r.value.body.error == id.error.value
  {
    if Truthy(id.error) then Some(Reply(401, ErrorBody(id.error.value)))
    else if !Truthy(id.email) then Some(Reply(401, ErrorBody("Unauthorized")))
    else None
  }

  /**
   * GET: the requester's keys, newest first (the order is the store's: `listing`, `None` when
   * the query failed). Authentication comes before the store is looked at.
   */
  function Get(id: Identity, store: Store, listing: Option<seq<KeyRow>>): (r: Reply)
    ensures AuthFailure(id).Some? ==> r == AuthFailure(id).value
    ensures AuthFailure(id).None? && !store.configured ==> r == Reply(503, ErrorBody("Database not configured"))
    ensures AuthFailure(id).None? && store.configured && store.userId.None? ==> r.status == 500
    ensures r.status == 200 <==> AuthFailure(id).None? && store.configured && store.userId.Some? && listing.Some?
    ensures r.status == 200 ==> r.body == KeyList(listing.value)
  {
    if AuthFailure(id).Some? then AuthFailure(id).value
    else if !store.configured then Reply(503, ErrorBody("Database not configured"))
    else if store.userId.None? then
      Reply(500, ErrorBody("Failed to get or create user. Please check server logs and ensure Supabase is configured correctly."))
    else if listing.None? then Reply(500, ErrorBody("Failed to fetch API keys"))
    else Reply(200, KeyList(listing.value))
  }

  /** The `name` field of a POST body: absent, a string, or some other JSON value. */
  datatype NameField = Absent | Text(text: string) | NotText

  /** The key name: the trimmed `name` when it is a string with something besides whitespace, else the default. */
  function ChooseKeyName(name: NameField, defaultName: string): (r: string)
    ensures name.Text? && Trim(name.text) != "" ==> r == Trim(name.text)
    ensures !(name.Text? && Trim(name.text) != "") ==> r == defaultName
    ensures r == defaultName || (r != [] && !IsJsWhitespace(r[0]) && !IsJsWhitespace(r[|r| - 1]))
  {
    if name.Text? && Trim(name.text) != "" then Trim(name.text) else defaultName
  }

  /**
   * The name the handler keeps is already trimmed, provided the default name is: trimming it
   * again, as the dashboard does before every rename, leaves it as it is.
   */
  lemma ChosenNameIsTrimmed(name: NameField, defaultName: string)
    requires Trim(defaultName) == defaultName
    ensures Trim(ChooseKeyName(name, defaultName)) == ChooseKeyName(name, defaultName)
  {
    if name.Text? {
      TrimIdempotent(name.text);
    }
  }

  /** The POST body: not JSON (which the handler's catch-all turns into a 500), or an object. */
  datatype PostBody = Unreadable | Fields(name: NameField)

  /**
   * POST: creates a key for the requester. `defaultName` is today's default name; `inserted`
   * is what the insert answers (the new row's id and creation time, or `None` on failure).
   * Also returns the record sent to the store, if any.
   */
  method Post(id: Identity, store: Store, body: PostBody, defaultName: string, inserted: Option<(string, string)>)
    returns (reply: Reply, sent: Option<NewKey>)
    ensures AuthFailure(id).Some? ==> reply == AuthFailure(id).value && sent.None?
    ensures AuthFailure(id).None? && !store.configured ==> reply == Reply(503, ErrorBody("Database not configured")) && sent.None?
    ensures AuthFailure(id).None? && store.configured && store.userId.None? ==>
      reply == Reply(500, ErrorBody("Failed to get or create user")) && sent.None?
    ensures AuthFailure(id).None? && store.configured && store.userId.Some? && body.Unreadable? ==>
      reply == Reply(500, ErrorBody("Internal server error")) && sent.None?
    // a record is sent exactly when every check passed, and it is a fresh, unused key of the requester
    ensures sent.Some? <==> AuthFailure(id).None? && store.configured && store.userId.Some? && body.Fields?
    ensures sent.Some? ==>
      && sent.value.userId == store.userId.value
      && sent.value.usage == 0
      && sent.value.name == ChooseKeyName(body.name, defaultName)
      && IsGeneratedKey(sent.value.key)
    ensures sent.Some? && inserted.None? ==> reply == Reply(500, ErrorBody("Failed to create API key"))
    ensures sent.Some? && inserted.Some? ==>
      reply == Reply(201, CreatedKey(KeyRow(inserted.value.0, sent.value.name, sent.value.key, 0, inserted.value.1)))
    ensures reply.status == 201 <==> sent.Some? && inserted.Some?
  {
    sent := None;
    var failure := AuthFailure(id);
    if failure.Some? {
      return failure.value, sent;
    }
    if !store.configured {
      return Reply(503, ErrorBody("Database not configured")), sent;
    }
    if store.userId.None? {
      return Reply(500, ErrorBody("Failed to get or create user")), sent;
    }
    if body.Unreadable? {
      return Reply(500, ErrorBody("Internal server error")), sent;
    }
    var keyName := ChooseKeyName(body.name, defaultName);
    var key := GenerateApiKey();
    var newKey := NewKey(store.userId.value, keyName, key, 0);
    sent := Some(newKey);
    match inserted {
      case None =>
        reply := Reply(500, ErrorBody("Failed to create API key"));
      case Some((rowId, createdAt)) =>
        reply := Reply(201, CreatedKey(KeyRow(rowId, newKey.name, newKey.key, newKey.usage, createdAt)));
    }
  }
}
