/** The Criteo identity provider: profile resolution, the two-step directory
    lookup with allow-list matching, and the refresh heartbeat. */
module Criteo {
  import opened Wire
  import opened Sessions
  import opened Requests
  import opened Groups

  const DefaultScope: string := "cn mail uid dn umsId"

  /** The generic provider settings the Criteo provider embeds. */
  datatype ProviderData = ProviderData(
    providerName: string,
    scope: string,
    loginURL: Url,
    redeemURL: Url,
    profileURL: Url,
    validateURL: Url)

  /** The directory entry of user key dn sits at the identity URL's path followed by dn ... */
  function EntryRequest(identity: Url, dn: string): Request {
    Get(identity.(path := identity.path + dn), NoHeader)
  }

  /** ... and its memberships one level below, at ".../groups". */
  function GroupsRequest(identity: Url, dn: string): Request {
    Get(identity.(path := identity.path + dn + "/groups"), NoHeader)
  }

  /** The requests of one group check: the entry, then the memberships only once the entry was found. */
  function DirectoryTrace(identity: Url, dn: string, net: Remote): seq<Request> {
    if net.entries(EntryRequest(identity, dn)).Decoded? then
      [EntryRequest(identity, dn), GroupsRequest(identity, dn)]
    else
      [EntryRequest(identity, dn)]
  }

  /** Reference definition of the group check: both lookups succeed and some membership is allowed. */
  predicate Authorized(identity: Url, dn: string, allow: seq<string>, net: Remote) {
    net.entries(EntryRequest(identity, dn)).Decoded? &&
    var reply := net.memberships(GroupsRequest(identity, dn));
    reply.Decoded? && Member(reply.value, allow)
  }

  /** GetProfile's effect on session s, asked of the profile URL over network net.
      The tokens and the expiry are never touched. A session that already has both
      user and email is left alone without a request; otherwise an empty access token
      fails before any request; otherwise one authenticated request is sent, a failure is
      passed on with the session as it was, and a success overwrites email and user
      with what was fetched and then fails if the email is empty. */
  twostate predicate ProfileResolved(s: Session, profileURL: Url, net: Remote, new err: Option<Error>, sent: seq<Request>)
    reads s
  {
    var request := Get(profileURL, GetCriteoHeader(old(s.accessToken)));
    s.accessToken == old(s.accessToken) && s.refreshToken == old(s.refreshToken) &&
    s.expiresOn == old(s.expiresOn) &&
    if old(s.HasProfile()) then
      err == None && sent == [] && s.email == old(s.email) && s.user == old(s.user)
    else if old(s.accessToken) == "" then
      err == Some(MissingAccessToken) && sent == [] && s.email == old(s.email) && s.user == old(s.user)
    else
      sent == [request] &&
      match net.tokenInfo(request)
      case Failed(why) =>
        err == Some(RequestFailed(why)) && s.email == old(s.email) && s.user == old(s.user)
      case Decoded(info) =>
        s.email == info.email && s.user == info.user &&
        err == (if info.email == "" then Some(EmailNotFound) else None)
  }

  /** RefreshSessionIfNeeded has nothing to do: no session, no refresh token,
      or an expiry strictly after the clock reading checkedAt. */
  predicate RefreshSkipped(s: Session?, checkedAt: int)
    reads s
  {
    s == null || (s.expiresOn.Some? && s.expiresOn.value > checkedAt) || s.refreshToken == ""
  }

  class CriteoProvider {
    var data: ProviderData
    var identityURL: Option<Url>            // None until Configure
    var groupValidator: Option<seq<string>> // the allow-list the validator checks; None until Configure

    /** Both are set by Configure; before it, the group check dereferences nil. */
    predicate Configured()
      reads this
    {
      identityURL.Some? && groupValidator.Some?
    }

    /** NewCriteoProvider: names the provider and gives it the default scope when it has none. */
    constructor (p: ProviderData)
      ensures data == p.(providerName := "Criteo", scope := if p.scope == "" then DefaultScope else p.scope)
      ensures identityURL == None && groupValidator == None
    {
      data := p.(providerName := "Criteo", scope := if p.scope == "" then DefaultScope else p.scope);
      identityURL := None;
      groupValidator := None;
    }

    /** Sets the directory base URL, replaces each blank endpoint URL by its default
        (the validation URL by the profile URL as it stands afterwards), and installs the allow-list. */
    method Configure(ssoHost: string, identityHost: string, groups: seq<string>)
      modifies this
      ensures Configured()
      ensures identityURL == Some(Url("http", identityHost, "/user/", ""))
      ensures data.loginURL == if old(data.loginURL).Blank()
                               then Url("https", ssoHost, "/auth/oauth2/authorize", "realm=criteo")
                               else old(data.loginURL)
      ensures data.redeemURL == if old(data.redeemURL).Blank()
                                then Url("https", ssoHost, "/auth/oauth2/access_token", "realm=criteo")
                                else old(data.redeemURL)
      ensures data.profileURL == if old(data.profileURL).Blank()
                                 then Url("https", ssoHost, "/auth/oauth2/tokeninfo", "realm=criteo")
                                 else old(data.profileURL)
      ensures data.validateURL == if old(data.validateURL).Blank() then data.profileURL else old(data.validateURL)
      ensures data.providerName == old(data.providerName) && data.scope == old(data.scope)
      ensures groupValidator == Some(groups)
    {
      identityURL := Some(Url("http", identityHost, "/user/", ""));
      if data.loginURL.Blank() {
        data := data.(loginURL := Url("https", ssoHost, "/auth/oauth2/authorize", "realm=criteo"));
      }
      if data.redeemURL.Blank() {
        data := data.(redeemURL := Url("https", ssoHost, "/auth/oauth2/access_token", "realm=criteo"));
      }
      if data.profileURL.Blank() {
        data := data.(profileURL := Url("https", ssoHost, "/auth/oauth2/tokeninfo", "realm=criteo"));
      }
      if data.validateURL.Blank() {
        data := data.(validateURL := data.profileURL);
      }
      groupValidator := Some(groups);
    }

    /** Resolves the session's email and user key from the introspection endpoint. */
    method GetProfile(s: Session, net: Remote) returns (err: Option<Error>, sent: seq<Request>)
      modifies s
      ensures ProfileResolved(s, data.profileURL, net, err, sent)
    {
      if s.user != "" && s.email != "" {
        return None, [];
      }
      var call := RequestJSON(s, data.profileURL, net.tokenInfo);
      sent := call.sent;
      if call.result.Err? {
        return Some(call.result.error), sent;
      }
      var info := call.result.value;
      s.email := info.email;
      s.user := info.user;
      if s.email == "" {
        return Some(EmailNotFound), sent;
      }
      return None, sent;
    }

    /** Resolves the profile and hands back the email as it then stands. */
    method GetEmailAddress(s: Session, net: Remote) returns (email: string, err: Option<Error>, sent: seq<Request>)
      modifies s
      ensures ProfileResolved(s, data.profileURL, net, err, sent)
      ensures email == s.email
    {
      err, sent := GetProfile(s, net);
      email := s.email;
    }

    /** Resolves the profile and hands back the user key as it then stands. */
    method GetUserName(s: Session, net: Remote) returns (user: string, err: Option<Error>, sent: seq<Request>)
      modifies s
      ensures ProfileResolved(s, data.profileURL, net, err, sent)
      ensures user == s.user
    {
      err, sent := GetProfile(s, net);
      user := s.user;
    }

    /** Fetches the directory entry of dn, then its memberships, both without credentials;
        the first failure ends the lookup and is passed on. */
    method GetExtendedProfile(dn: string, net: Remote) returns (r: Result<CriteoProfile>, sent: seq<Request>)
      requires identityURL.Some?
      ensures sent == DirectoryTrace(identityURL.value, dn, net)
      ensures forall q :: q in sent ==> q.header == NoHeader
      ensures net.entries(EntryRequest(identityURL.value, dn)).Failed? ==>
                r == Err(RequestFailed(net.entries(EntryRequest(identityURL.value, dn)).reason))
      ensures net.entries(EntryRequest(identityURL.value, dn)).Decoded? ==>
                r == match net.memberships(GroupsRequest(identityURL.value, dn))
                     case Failed(why) => Err(RequestFailed(why))
                     case Decoded(groups) =>
                       Ok(CriteoProfile(net.entries(EntryRequest(identityURL.value, dn)).value, GroupsResponse(groups)))
    {
      var url := identityURL.value;
      url := url.(path := url.path + dn);
      var entry := RequestJSON(null, url, net.entries);
      sent := entry.sent;
      if entry.result.Err? {
        return Err(entry.result.error), sent;
      }
      url := url.(path := url.path + "/groups");
      var groups := RequestJSON(null, url, net.memberships);
      sent := sent + groups.sent;
      if groups.result.Err? {
        return Err(groups.result.error), sent;
      }
      r := Ok(CriteoProfile(entry.result.value, GroupsResponse(groups.result.value)));
    }

    /** Whether the session's user belongs to one of groups; a failed lookup means "no". */
    method UserInGroup(groups: seq<string>, s: Session, net: Remote) returns (ok: bool, sent: seq<Request>)
      requires identityURL.Some?
      ensures ok == Authorized(identityURL.value, s.user, groups, net)
      ensures sent == DirectoryTrace(identityURL.value, s.user, net)
    {
      var profile;
      profile, sent := GetExtendedProfile(s.user, net);
      if profile.Err? {
        return false, sent;
      }
      var memberships := profile.value.groups.groups;
      var i := 0;
      while i < |memberships|
        invariant 0 <= i <= |memberships|
        invariant forall a, b :: 0 <= a < i && 0 <= b < |groups| ==> memberships[a].name != groups[b]
      {
        var j := 0;
        while j < |groups|
          invariant 0 <= j <= |groups|
          invariant forall b :: 0 <= b < j ==> memberships[i].name != groups[b]
        {
          if memberships[i].name == groups[j] {
            return true, sent;
          }
          j := j + 1;
        }
        i := i + 1;
      }
      return false, sent;
    }

    /** The configured group validator: the allow-list check of the session's user. */
    method ValidateGroup(s: Session, net: Remote) returns (ok: bool, sent: seq<Request>)
      requires Configured()
      ensures ok == Authorized(identityURL.value, s.user, groupValidator.value, net)
      ensures sent == DirectoryTrace(identityURL.value, s.user, net)
    {
      ok, sent := UserInGroup(groupValidator.value, s, net);
    }

    /** Re-checks group membership of a session that is due, and on success pushes its
        expiry to the next whole second after now. checkedAt and now are the two clock
        readings. It never reports a refresh and never touches tokens, email or user. */
    method RefreshSessionIfNeeded(s: Session?, net: Remote, checkedAt: int, now: int)
      returns (refreshed: bool, err: Option<Error>, sent: seq<Request>)
      requires !RefreshSkipped(s, checkedAt) ==> Configured()
      modifies s
      ensures !refreshed
      ensures s != null ==> s.accessToken == old(s.accessToken) && s.refreshToken == old(s.refreshToken)
      ensures s != null ==> s.email == old(s.email) && s.user == old(s.user)
      ensures old(RefreshSkipped(s, checkedAt)) ==>
                err == None && sent == [] && (s != null ==> s.expiresOn == old(s.expiresOn))
      ensures !old(RefreshSkipped(s, checkedAt)) ==>
                s != null && sent == DirectoryTrace(identityURL.value, s.user, net) &&
                if Authorized(identityURL.value, s.user, groupValidator.value, net) then
                  err == None && s.expiresOn == Some(TruncateToSecond(now + Second))
                else
                  err == Some(NoLongerInGroups(s.email)) && s.expiresOn == old(s.expiresOn)
    {
      if s == null || (s.expiresOn.Some? && s.expiresOn.value > checkedAt) || s.refreshToken == "" {
        return false, None, [];
      }
      var ok;
      ok, sent := ValidateGroup(s, net);
      if !ok {
        return false, Some(NoLongerInGroups(s.email)), sent;
      }
      var expires := TruncateToSecond(now + Second);
      s.expiresOn := Some(expires);
      return false, None, sent;
    }
  }
}
