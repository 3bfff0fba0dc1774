/** The link service: the `links` table, link creation for the caller of a
    bearer token, and the listing of the caller's links. */
module LinkService {
  import opened Http

  /** Base of every short URL handed out. */
  const ShortUrlPrefix := "http://localhost:8080/"
  const ShortCodeSize := 7
  /** The 401 raised by `get_current_user`. */
  const CredentialsError := HttpError(401, "Could not validate credentials")

  /** nanoid's default alphabet: `_`, `-`, digits and ASCII letters. */
  predicate IsNanoidChar(c: char) {
    c == '_' || c == '-' || '0' <= c <= '9' || 'a' <= c <= 'z' || 'A' <= c <= 'Z'
  }

  predicate IsGeneratedCode(s: string) {
    |s| == ShortCodeSize && forall i :: 0 <= i < |s| ==> IsNanoidChar(s[i])
  }

  /** A value `nanoid.generate(size=7)` can return. */
  type ShortCode = s: string | IsGeneratedCode(s) witness "0000000"

  /** A row of `links`. */
  datatype LinkRecord = LinkRecord(id: string, shortCode: string, originalUrl: string, userId: string)

  /** The caller, as read from the token. */
  datatype User = User(id: string, email: string)

  /** The body of `POST /links`. */
  datatype LinkCreate = LinkCreate(originalUrl: string)

  /** One item of a response: `{short_url, original_url}`. */
  datatype LinkResponse = LinkResponse(shortUrl: string, originalUrl: string)

  // ---------------------------------------------------------------
  // Authentication
  // ---------------------------------------------------------------

  /** `get_current_user`. `decode` stands for `jwt.decode` with the
      service's key: the payload, or `None` when it raises `JWTError`.
      The caller is accepted exactly when the payload carries both `sub`
      and `user_id` (an empty string counts as present). */
  function CurrentUser(token: string, decode: string -> Option<JsonObject>): (r: Result<User>)
    ensures r.Ok? <==>
      decode(token).Some? && Get(decode(token).value, "sub").Some? && Get(decode(token).value, "user_id").Some?
    ensures r.Ok? ==>
      Get(decode(token).value, "user_id") == Some(r.value.id) && Get(decode(token).value, "sub") == Some(r.value.email)
    ensures r.Err? ==> r.error == CredentialsError
  {
    match decode(token)
    case None => Err(CredentialsError)
    case Some(payload) =>
      var email := Get(payload, "sub");
      var userId := Get(payload, "user_id");
      if email.None? || userId.None? then Err(CredentialsError)
      else Ok(User(userId.value, email.value))
  }

  // ---------------------------------------------------------------
  // Short URLs
  // ---------------------------------------------------------------

  /** The short URL of a code; the redirect route `/{short_code}` under
      the same base reads the code back from it. */
  function ShortUrl(code: string): (u: string)
    ensures ShortCodeOf(u) == Some(code)
  {
    StripPrefixOfConcat(ShortUrlPrefix, code);
    ShortUrlPrefix + code
  }

  /** The code a URL under `ShortUrlPrefix` names, if any. */
  function ShortCodeOf(u: string): Option<string> {
    StripPrefix(ShortUrlPrefix, u)
  }

  // ---------------------------------------------------------------
  // Listing
  // ---------------------------------------------------------------

  /** `filter(Link.user_id == user_id).all()`: the rows of one owner. */
  function OwnedBy(links: seq<LinkRecord>, userId: string): (r: seq<LinkRecord>)
    ensures forall x :: x in r <==> x in links && x.userId == userId
    ensures |r| <= |links|
  {
    if links == [] then []
    else (if links[0].userId == userId then [links[0]] else []) + OwnedBy(links[1..], userId)
  }

  /** Filtering splits over concatenation, so the owner's rows keep the
      order of the modelled table (insertion order). */
  lemma {:induction false} OwnedByAppend(a: seq<LinkRecord>, b: seq<LinkRecord>, userId: string)
    ensures OwnedBy(a + b, userId) == OwnedBy(a, userId) + OwnedBy(b, userId)
  {
    if a == [] {
      assert a + b == b;
    } else {
      assert (a + b)[1..] == a[1..] + b;
      OwnedByAppend(a[1..], b, userId);
    }
  }

  /** The list comprehension of `get_user_links`: one item per row, in
      order, whose short URL names the row's code and whose original URL
      is the stored one. */
  function AsResponses(links: seq<LinkRecord>): (r: seq<LinkResponse>)
    ensures |r| == |links|
    ensures forall i :: 0 <= i < |links| ==>
      ShortCodeOf(r[i].shortUrl) == Some(links[i].shortCode) && r[i].originalUrl == links[i].originalUrl
  {
    if links == [] then []
    else [LinkResponse(ShortUrl(links[0].shortCode), links[0].originalUrl)] + AsResponses(links[1..])
  }

  /** The response mapping splits over concatenation: it follows from the
      item-by-item contract of `AsResponses`. */
  lemma AsResponsesAppend(a: seq<LinkRecord>, b: seq<LinkRecord>)
    ensures AsResponses(a + b) == AsResponses(a) + AsResponses(b)
  {
  }

  /** What `get_user_links` answers for `userId`. */
  function UserLinks(links: seq<LinkRecord>, userId: string): seq<LinkResponse> {
    AsResponses(OwnedBy(links, userId))
  }

  /** A new row shows up at the end of its owner's listing and nowhere
      else. */
  lemma {:induction false} ListingAfterInsert(links: seq<LinkRecord>, row: LinkRecord, userId: string)
    ensures UserLinks(links + [row], userId) ==
      UserLinks(links, userId) +
      (if row.userId == userId then [LinkResponse(ShortUrl(row.shortCode), row.originalUrl)] else [])
  {
    OwnedByAppend(links, [row], userId);
    assert [row][1..] == [];
    assert OwnedBy([row], userId) == if row.userId == userId then [row] else [];
    AsResponsesAppend(OwnedBy(links, userId), OwnedBy([row], userId));
  }

  // ---------------------------------------------------------------
  // The table
  // ---------------------------------------------------------------

  /** The table's unique columns: `id` (primary key) and `short_code`. */
  ghost predicate KeysUnique(links: seq<LinkRecord>) {
    forall i, j :: 0 <= i < j < |links| ==>
      links[i].id != links[j].id && links[i].shortCode != links[j].shortCode
  }

  /** Whether a row with this id or this code is already stored, which
      makes the commit fail. */
  predicate Conflicts(links: seq<LinkRecord>, id: string, code: string) {
    exists i :: 0 <= i < |links| && (links[i].id == id || links[i].shortCode == code)
  }

  class LinkTable {
    var links: seq<LinkRecord>

    ghost predicate Valid()
      reads this
    {
      KeysUnique(links)
    }

    constructor ()
      ensures Valid() && links == []
    {
      links := [];
    }

    /** `create_link`. `code` is what nanoid generated and `rowId` the
        uuid4 default of `id`. A collision on either unique column makes the
        commit raise, which the handler does not catch. */
    method CreateLink(request: LinkCreate, token: string, decode: string -> Option<JsonObject>,
                      code: ShortCode, rowId: string)
      returns (r: Result<LinkResponse>)
      requires Valid()
      modifies this
      ensures Valid()
      ensures match CurrentUser(token, decode)
        case Err(e) => r == Err(e) && links == old(links)
        case Ok(user) =>
          if Conflicts(old(links), rowId, code) then
            r == Err(InternalServerError) && links == old(links)
          else
            && links == old(links) + [LinkRecord(rowId, code, request.originalUrl, user.id)]
            && r == Ok(LinkResponse(ShortUrl(code), request.originalUrl))
      // the new link is the last item of its owner's listing
      ensures r.Ok? ==>
        forall userId :: UserLinks(links, userId) ==
          UserLinks(old(links), userId) + (if userId == CurrentUser(token, decode).value.id then [r.value] else [])
    {
      var current := CurrentUser(token, decode);
      if current.Err? {
        return Err(current.error);
      }
      var newLink := LinkRecord(rowId, code, request.originalUrl, current.value.id);
      if Conflicts(links, rowId, code) {
        return Err(InternalServerError);
      }
      forall userId
        ensures UserLinks(links + [newLink], userId) ==
          UserLinks(links, userId) + (if newLink.userId == userId then [LinkResponse(ShortUrl(code), newLink.originalUrl)] else [])
      {
        ListingAfterInsert(links, newLink, userId);
      }
      links := links + [newLink];
      r := Ok(LinkResponse(ShortUrlPrefix + newLink.shortCode, newLink.originalUrl));
    }

    /** `get_user_links`: the caller's rows and nothing else, in table
        order, as responses. */
    method GetUserLinks(token: string, decode: string -> Option<JsonObject>)
      returns (r: Result<seq<LinkResponse>>)
      ensures r.Err? <==> CurrentUser(token, decode).Err?
      ensures r.Err? ==> r.error == CredentialsError
      ensures r.Ok? ==> r.value == UserLinks(links, CurrentUser(token, decode).value.id)
    {
      var current := CurrentUser(token, decode);
      if current.Err? {
        return Err(current.error);
      }
      var userLinks := OwnedBy(links, current.value.id);
      r := Ok(AsResponses(userLinks));
    }
  }
}
