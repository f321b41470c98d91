/** Values exchanged between the Criteo provider and the remote services,
    the provider's errors, and the network as an oracle. */
module Wire {

  datatype Option<T> = None | Some(value: T)

  /** A URL, reduced to the parts the provider sets. */
  datatype Url = Url(scheme: string, host: string, path: string, rawQuery: string) {

    /** The zero URL, the one that serialises to the empty string. */
    predicate Blank() {
      scheme == "" && host == "" && path == "" && rawQuery == ""
    }
  }

  /** The header of a GET: Go's empty default, or the one built from an access token. */
  datatype Header = NoHeader | CriteoHeader(accept: string, authorization: string)

  datatype Request = Get(url: Url, header: Header)

  /** What one remote lookup gives back: a decoded record, or the reason it failed
      (transport error, bad status, malformed body). */
  datatype Reply<T> = Decoded(value: T) | Failed(reason: string)

  /** Body of the token-introspection endpoint: {"mail": …, "dn": …}. */
  datatype TokenInfo = TokenInfo(email: string, user: string)

  /** Body of the directory entry endpoint: {"cn": …, "dn": …}. */
  datatype ProfileResponse = ProfileResponse(cn: string, dn: string)

  /** One element of the group-membership endpoint's array: {"name": …}. */
  datatype GroupInfo = GroupInfo(name: string)

  datatype GroupsResponse = GroupsResponse(groups: seq<GroupInfo>)

  /** A directory entry together with its group memberships. */
  datatype CriteoProfile = CriteoProfile(profile: ProfileResponse, groups: GroupsResponse)

  datatype Error =
    | MissingAccessToken              // "missing access token"
    | RequestFailed(reason: string)   // a remote lookup failed; its error is passed on
    | EmailNotFound                   // "can't find email"
    | NoLongerInGroups(email: string) // "<email> is no longer in the group(s)"

  datatype Result<T> = Ok(value: T) | Err(error: Error)

  /** The outcome of a remote call together with the requests it actually sent. */
  datatype Call<T> = Call(result: Result<T>, sent: seq<Request>)

  /** The network: the reply that each endpoint gives to each request. */
  datatype Remote = Remote(
    tokenInfo: Request -> Reply<TokenInfo>,
    entries: Request -> Reply<ProfileResponse>,
    memberships: Request -> Reply<seq<GroupInfo>>)

  /** A failed reply becomes the error the caller sees. */
  function Lift<T>(reply: Reply<T>): Result<T> {
    match reply
    case Decoded(v) => Ok(v)
    case Failed(why) => Err(RequestFailed(why))
  }
}
