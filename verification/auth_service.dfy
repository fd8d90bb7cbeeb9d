/** The session token lifecycle of the member service (AuthService): social login, token rotation on
    refresh, the two access-token checks and logout.

    The service keeps three stores: the Redis cache of LoginRefreshToken records keyed by refresh token,
    the Redis cache of LoginAccessToken records keyed by access token, and the member table, of which only
    the refresh-token column is touched here. Every write builds a whole record and saves it, so every
    write is a whole-value map update. Provider clients (Kakao, Google) and the common-code lookup are
    parameters; the clock is the `now` argument, in seconds.
 */
module AuthService {
  import opened Results

  type Token = string
  type MemberId = int

  /** The AuthCode values the service raises through UnAuthException. */
  datatype AuthCode = PlatformFail | SearchTokenFail | InvalidTokenFail | KakaoGetTokenFail

  /** Why an operation stopped: an UnAuthException carrying its code, or the NullPointerException that
      refresh runs into when the stored platform code is neither KAKAO nor GOOGLE. */
  datatype AuthError = UnAuth(code: AuthCode) | NullDereference

  /** Tokens handed out by a provider, with their lifetimes in seconds. */
  datatype SocialAccess = SocialAccess(accessToken: Token, accessTokenExpire: int,
                                       refreshToken: Token, refreshTokenExpire: int)

  /** The provider's view of the user; login stores `kakaoUserId` whichever provider answered. */
  datatype SocialUser = SocialUser(kakaoUserId: string)

  /** The member row the provider client found or created. */
  datatype Member = Member(memberId: MemberId, name: string)

  /** What the service asks of one provider client; each call either answers or fails, and a failure
      reaches the caller unchanged. */
  datatype Provider = Provider(
    getAccessToken: string -> Result<SocialAccess, AuthError>,
    getUser: Token -> Result<SocialUser, AuthError>,
    getMember: SocialUser -> Result<Member, AuthError>,
    refreshAccessToken: (Token, int) -> Result<SocialAccess, AuthError>,
    authAccessToken: Token -> Result<string, AuthError>)

  /** The local codes of the two platforms, as the common-code service reports them. */
  datatype PlatformCodes = PlatformCodes(kakao: string, google: string)

  /** A login session as cached under its refresh token. Expiry instants are absolute seconds. */
  datatype LoginRefreshToken = LoginRefreshToken(
    refreshToken: Token, refreshTokenExpire: int, refreshExpire: int,
    accessToken: Token, accessTokenExpire: int, accessExpire: int,
    memberId: MemberId, platformCode: string, platformUserId: string)

  /** An issued access token as cached under its own value; `refreshToken` points back to its session. */
  datatype LoginAccessToken = LoginAccessToken(
    accessToken: Token, accessExpire: int, refreshToken: Token, memberId: MemberId, isValid: bool)

  /** The three stores. A member without a stored refresh token maps to None. */
  datatype Sessions = Sessions(
    refreshTokens: map<Token, LoginRefreshToken>,
    accessTokens: map<Token, LoginAccessToken>,
    members: map<MemberId, Option<Token>>)

  /** The stores after an operation, and what the operation answered. */
  datatype Reply<+T> = Reply(state: Sessions, result: Result<T, AuthError>)

  datatype LoginResponse = LoginResponse(name: string, accessToken: Token, refreshToken: Token)

  datatype RefreshTokenResponse = RefreshTokenResponse(accessToken: Token, refreshToken: Token)

  /** m and m' hold the same entries on every key outside ks. */
  ghost predicate AgreeOutside<K(!new), V>(m: map<K, V>, m': map<K, V>, ks: set<K>)
  {
    forall k :: k !in ks ==> (k in m <==> k in m') && (k in m ==> m[k] == m'[k])
  }

  /** Every record is cached under its own token and names KAKAO as its platform. */
  ghost predicate Wellformed(s: Sessions, codes: PlatformCodes)
  {
    && (forall t :: t in s.refreshTokens ==>
          s.refreshTokens[t].refreshToken == t && s.refreshTokens[t].platformCode == codes.kakao)
    && (forall t :: t in s.accessTokens ==> s.accessTokens[t].accessToken == t)
  }

  // Store writes: an upsert keyed by the record's own token, a delete, and the member table update.

  function SaveRefreshToken(s: Sessions, rec: LoginRefreshToken): Sessions
  {
    s.(refreshTokens := s.refreshTokens[rec.refreshToken := rec])
  }

  function SaveAccessToken(s: Sessions, rec: LoginAccessToken): Sessions
  {
    s.(accessTokens := s.accessTokens[rec.accessToken := rec])
  }

  function DeleteRefreshToken(s: Sessions, refreshToken: Token): Sessions
  {
    s.(refreshTokens := s.refreshTokens - {refreshToken})
  }

  function SaveMemberToken(s: Sessions, memberId: MemberId, refreshToken: Token): Sessions
  {
    s.(members := s.members[memberId := Some(refreshToken)])
  }

  /** The provider client login dispatches to: KAKAO first, then GOOGLE, else none. */
  function ProviderFor(codes: PlatformCodes, kakao: Provider, google: Provider, platformCode: string): Option<Provider>
  {
    if platformCode == codes.kakao then Some(kakao)
    else if platformCode == codes.google then Some(google)
    else None
  }

  /** The three provider calls of a login, all of which answered. */
  ghost predicate ProviderAnswers(p: Provider, authCode: string)
  {
    && p.getAccessToken(authCode).Success?
    && p.getUser(p.getAccessToken(authCode).value.accessToken).Success?
    && p.getMember(p.getUser(p.getAccessToken(authCode).value.accessToken).value).Success?
  }

  /** login: exchange the authorization code with the chosen provider, resolve the member, cache a new
      session under the provider's refresh token and a valid access record under its access token, and
      record the refresh token on the member. */
  function Login(s: Sessions, codes: PlatformCodes, kakao: Provider, google: Provider,
                 platformCode: string, authCode: string, now: int): (r: Reply<LoginResponse>)
    ensures ProviderFor(codes, kakao, google, platformCode).None? ==> r == Reply(s, Failure(UnAuth(PlatformFail)))
    ensures r.result.Success? <==>
              ProviderFor(codes, kakao, google, platformCode).Some?
              && ProviderAnswers(ProviderFor(codes, kakao, google, platformCode).value, authCode)
    ensures r.result.Failure? ==> r.state == s
    ensures ProviderFor(codes, kakao, google, platformCode).Some? ==>
              var p := ProviderFor(codes, kakao, google, platformCode).value;
              var access := p.getAccessToken(authCode);
              access.Failure? ==> r == Reply(s, Failure(access.error))
    ensures ProviderFor(codes, kakao, google, platformCode).Some? ==>
              var p := ProviderFor(codes, kakao, google, platformCode).value;
              var access := p.getAccessToken(authCode);
              access.Success? && p.getUser(access.value.accessToken).Failure? ==>
                r == Reply(s, Failure(p.getUser(access.value.accessToken).error))
    ensures ProviderFor(codes, kakao, google, platformCode).Some? ==>
              var p := ProviderFor(codes, kakao, google, platformCode).value;
              var access := p.getAccessToken(authCode);
              access.Success? && p.getUser(access.value.accessToken).Success? ==>
                var user := p.getUser(access.value.accessToken).value;
                p.getMember(user).Failure? ==> r == Reply(s, Failure(p.getMember(user).error))
    ensures r.result.Success? ==>
              var p := ProviderFor(codes, kakao, google, platformCode).value;
              var access := p.getAccessToken(authCode).value;
              var user := p.getUser(access.accessToken).value;
              var member := p.getMember(user).value;
              var resp := r.result.value;
              && resp == LoginResponse(member.name, access.accessToken, access.refreshToken)
              && resp.refreshToken in r.state.refreshTokens
              && resp.accessToken in r.state.accessTokens
              && (var session := r.state.refreshTokens[resp.refreshToken];
                 && session.refreshToken == resp.refreshToken
                 && session.accessToken == resp.accessToken
                 && session.refreshTokenExpire == access.refreshTokenExpire
                 && session.refreshExpire == now + access.refreshTokenExpire
                 && session.accessTokenExpire == access.accessTokenExpire
                 && session.accessExpire == now + access.accessTokenExpire
                 && session.memberId == member.memberId
                 && session.platformCode == codes.kakao
                 && session.platformUserId == user.kakaoUserId
                 && r.state.accessTokens[resp.accessToken]
                    == LoginAccessToken(resp.accessToken, session.accessExpire, resp.refreshToken, member.memberId, true)
                 && r.state.members == s.members[member.memberId := Some(resp.refreshToken)])
              && AgreeOutside(s.refreshTokens, r.state.refreshTokens, {resp.refreshToken})
              && AgreeOutside(s.accessTokens, r.state.accessTokens, {resp.accessToken})
  {
    match ProviderFor(codes, kakao, google, platformCode)
    case None => Reply(s, Failure(UnAuth(PlatformFail)))
    case Some(p) =>
      match p.getAccessToken(authCode)
      case Failure(e) => Reply(s, Failure(e))
      case Success(access) =>
        match p.getUser(access.accessToken)
        case Failure(e) => Reply(s, Failure(e))
        case Success(user) =>
          match p.getMember(user)
          case Failure(e) => Reply(s, Failure(e))
          case Success(member) =>
            var s1 := SaveRefreshToken(s, LoginRefreshToken(
                        access.refreshToken, access.refreshTokenExpire, now + access.refreshTokenExpire,
                        access.accessToken, access.accessTokenExpire, now + access.accessTokenExpire,
                        member.memberId, codes.kakao, user.kakaoUserId));
            var s2 := SaveAccessToken(s1, LoginAccessToken(
                        access.accessToken, now + access.accessTokenExpire, access.refreshToken,
                        member.memberId, true));
            var s3 := SaveMemberToken(s2, member.memberId, access.refreshToken);
            Reply(s3, Success(LoginResponse(member.name, access.accessToken, access.refreshToken)))
  }

  /** The part of refresh after the Kakao client handed out `issued`: cache the new access token, cache the new
      session (keeping the old absolute refresh expiry), record the new refresh token on the member, and
      re-save the previous access token as invalid. The member lookup sits between the writes, so a missing
      member leaves the first two writes in place. */
  function Rotate(s: Sessions, codes: PlatformCodes, session: LoginRefreshToken, issued: SocialAccess, now: int)
    : Reply<Option<RefreshTokenResponse>>
  {
    var s1 := SaveAccessToken(s, LoginAccessToken(
                issued.accessToken, now + issued.accessTokenExpire, issued.refreshToken, session.memberId, true));
    var s2 := SaveRefreshToken(s1, LoginRefreshToken(
                issued.refreshToken, issued.refreshTokenExpire, session.refreshExpire,
                issued.accessToken, issued.accessTokenExpire, now + issued.accessTokenExpire,
                session.memberId, codes.kakao, session.platformUserId));
    if session.memberId !in s2.members then
      Reply(s2, Failure(UnAuth(KakaoGetTokenFail)))
    else
      var s3 := SaveMemberToken(s2, session.memberId, issued.refreshToken);
      var s4 := SaveAccessToken(s3, LoginAccessToken(
                  session.accessToken, session.accessExpire, issued.refreshToken, session.memberId, false));
      Reply(s4, Success(Some(RefreshTokenResponse(issued.accessToken, issued.refreshToken))))
  }

  /** The Kakao client answered a refresh of the session cached under refreshToken. */
  ghost predicate KakaoRefreshed(s: Sessions, codes: PlatformCodes, kakao: Provider, refreshToken: Token)
  {
    && refreshToken in s.refreshTokens
    && s.refreshTokens[refreshToken].platformCode == codes.kakao
    && kakao.refreshAccessToken(s.refreshTokens[refreshToken].refreshToken,
                                s.refreshTokens[refreshToken].refreshTokenExpire).Success?
  }

  /** refresh: rotate the session cached under refreshToken. A Google session answers null (None) and
      writes nothing; a session of any other platform dereferences the unset provider answer. */
  function Refresh(s: Sessions, codes: PlatformCodes, kakao: Provider, refreshToken: Token, now: int)
    : (r: Reply<Option<RefreshTokenResponse>>)
    ensures refreshToken !in s.refreshTokens ==> r == Reply(s, Failure(UnAuth(SearchTokenFail)))
    ensures !KakaoRefreshed(s, codes, kakao, refreshToken) ==> r.state == s
    ensures refreshToken in s.refreshTokens && s.refreshTokens[refreshToken].platformCode == codes.kakao ==>
              var session := s.refreshTokens[refreshToken];
              var answer := kakao.refreshAccessToken(session.refreshToken, session.refreshTokenExpire);
              answer.Failure? ==> r == Reply(s, Failure(answer.error))
    ensures refreshToken in s.refreshTokens
            && s.refreshTokens[refreshToken].platformCode != codes.kakao
            && s.refreshTokens[refreshToken].platformCode != codes.google ==>
              r == Reply(s, Failure(NullDereference))
    ensures r.result == Success(None) <==>
              refreshToken in s.refreshTokens
              && s.refreshTokens[refreshToken].platformCode != codes.kakao
              && s.refreshTokens[refreshToken].platformCode == codes.google
    ensures r.result.Success? && r.result.value.Some? <==>
              KakaoRefreshed(s, codes, kakao, refreshToken) && s.refreshTokens[refreshToken].memberId in s.members
    ensures KakaoRefreshed(s, codes, kakao, refreshToken) ==>
              var session := s.refreshTokens[refreshToken];
              var issued := kakao.refreshAccessToken(session.refreshToken, session.refreshTokenExpire).value;
              && issued.refreshToken in r.state.refreshTokens
              && r.state.refreshTokens[issued.refreshToken] == LoginRefreshToken(
                   issued.refreshToken, issued.refreshTokenExpire, session.refreshExpire,
                   issued.accessToken, issued.accessTokenExpire, now + issued.accessTokenExpire,
                   session.memberId, codes.kakao, session.platformUserId)
              && AgreeOutside(s.refreshTokens, r.state.refreshTokens, {issued.refreshToken})
              && issued.accessToken in r.state.accessTokens
              && (if session.memberId in s.members then
                    && r.result == Success(Some(RefreshTokenResponse(issued.accessToken, issued.refreshToken)))
                    && session.accessToken in r.state.accessTokens
                    && r.state.accessTokens[session.accessToken] == LoginAccessToken(
                         session.accessToken, session.accessExpire, issued.refreshToken, session.memberId, false)
                    && (issued.accessToken != session.accessToken ==>
                          r.state.accessTokens[issued.accessToken] == LoginAccessToken(
                            issued.accessToken, now + issued.accessTokenExpire, issued.refreshToken,
                            session.memberId, true))
                    && AgreeOutside(s.accessTokens, r.state.accessTokens, {issued.accessToken, session.accessToken})
                    && r.state.members == s.members[session.memberId := Some(issued.refreshToken)]
                  else
                    && r.result == Failure(UnAuth(KakaoGetTokenFail))
                    && r.state.accessTokens[issued.accessToken] == LoginAccessToken(
                         issued.accessToken, now + issued.accessTokenExpire, issued.refreshToken,
                         session.memberId, true)
                    && AgreeOutside(s.accessTokens, r.state.accessTokens, {issued.accessToken})
                    && r.state.members == s.members)
  {
    if refreshToken !in s.refreshTokens then Reply(s, Failure(UnAuth(SearchTokenFail)))
    else
      var session := s.refreshTokens[refreshToken];
      if session.platformCode == codes.kakao then
        match kakao.refreshAccessToken(session.refreshToken, session.refreshTokenExpire)
        case Failure(e) => Reply(s, Failure(e))
        case Success(issued) => Rotate(s, codes, session, issued, now)
      else if session.platformCode == codes.google then Reply(s, Success(None))
      else Reply(s, Failure(NullDereference))
  }

  /** authAccessToken, the 2nd-tier check used on every request: the access record must exist and be
      valid, its session must exist, and the clock must not be past the expiry the SESSION records for
      its current access token. */
  function AuthAccessToken(s: Sessions, accessToken: Token, now: int): (r: Outcome<AuthError>)
    ensures r.Pass? <==>
              && accessToken in s.accessTokens
              && s.accessTokens[accessToken].isValid
              && s.accessTokens[accessToken].refreshToken in s.refreshTokens
              && now <= s.refreshTokens[s.accessTokens[accessToken].refreshToken].accessExpire
    ensures r.Fail? ==> r.error == UnAuth(InvalidTokenFail)
  {
    if accessToken !in s.accessTokens then Fail(UnAuth(InvalidTokenFail))
    else
      var access := s.accessTokens[accessToken];
      if !access.isValid then Fail(UnAuth(InvalidTokenFail))
      else if access.refreshToken !in s.refreshTokens then Fail(UnAuth(InvalidTokenFail))
      else if now > s.refreshTokens[access.refreshToken].accessExpire then Fail(UnAuth(InvalidTokenFail))
      else Pass
  }

  /** The lookups both checks start with: the access record exists and is valid, and the session it
      points to exists. */
  ghost predicate Located(s: Sessions, accessToken: Token)
  {
    && accessToken in s.accessTokens
    && s.accessTokens[accessToken].isValid
    && s.accessTokens[accessToken].refreshToken in s.refreshTokens
  }

  /** The session a located access token points to. */
  ghost function SessionOf(s: Sessions, accessToken: Token): LoginRefreshToken
    requires Located(s, accessToken)
  {
    s.refreshTokens[s.accessTokens[accessToken].refreshToken]
  }

  /** authAccessTokenToKakao, the 1st-tier check: the same lookups as the 2nd tier without the clock, then,
      for a Kakao session, the Kakao client's own verdict on the token must name the stored platform user.
      Sessions of other platforms pass once the lookups succeed. */
  function AuthAccessTokenToKakao(s: Sessions, codes: PlatformCodes, kakao: Provider, accessToken: Token)
    : (r: Outcome<AuthError>)
    ensures r.Pass? <==>
              && Located(s, accessToken)
              && (SessionOf(s, accessToken).platformCode == codes.kakao ==>
                    kakao.authAccessToken(accessToken) == Success(SessionOf(s, accessToken).platformUserId))
    ensures r.Fail? ==>
              if Located(s, accessToken) && SessionOf(s, accessToken).platformCode == codes.kakao
                 && kakao.authAccessToken(accessToken).Failure?
              then r.error == kakao.authAccessToken(accessToken).error
              else r.error == UnAuth(InvalidTokenFail)
  {
    if accessToken !in s.accessTokens then Fail(UnAuth(InvalidTokenFail))
    else
      var access := s.accessTokens[accessToken];
      if !access.isValid then Fail(UnAuth(InvalidTokenFail))
      else if access.refreshToken !in s.refreshTokens then Fail(UnAuth(InvalidTokenFail))
      else
        var session := s.refreshTokens[access.refreshToken];
        if session.platformCode == codes.kakao then
          match kakao.authAccessToken(accessToken)
          case Failure(e) => Fail(e)
          case Success(id) => if id != session.platformUserId then Fail(UnAuth(InvalidTokenFail)) else Pass
        else Pass
  }

  /** logout: the session and its current access record must both exist; the access record is re-saved
      with only its validity cleared and the session is deleted. Provider revocation is not modelled. */
  function Logout(s: Sessions, refreshToken: Token): (r: Reply<()>)
    ensures r.result.Success? <==>
              refreshToken in s.refreshTokens && s.refreshTokens[refreshToken].accessToken in s.accessTokens
    ensures r.result.Failure? ==> r == Reply(s, Failure(UnAuth(SearchTokenFail)))
    ensures r.result.Success? ==>
              var access := s.accessTokens[s.refreshTokens[refreshToken].accessToken];
              && refreshToken !in r.state.refreshTokens
              && AgreeOutside(s.refreshTokens, r.state.refreshTokens, {refreshToken})
              && access.accessToken in r.state.accessTokens
              && r.state.accessTokens[access.accessToken] == access.(isValid := false)
              && AgreeOutside(s.accessTokens, r.state.accessTokens, {access.accessToken})
              && r.state.members == s.members
  {
    if refreshToken !in s.refreshTokens then Reply(s, Failure(UnAuth(SearchTokenFail)))
    else
      var session := s.refreshTokens[refreshToken];
      if session.accessToken !in s.accessTokens then Reply(s, Failure(UnAuth(SearchTokenFail)))
      else
        var access := s.accessTokens[session.accessToken];
        var s1 := SaveAccessToken(s, LoginAccessToken(
                    access.accessToken, access.accessExpire, access.refreshToken, access.memberId, false));
        Reply(DeleteRefreshToken(s1, refreshToken), Success(()))
  }

  /** A client that refreshes once per instant in `nows`, each time with the refresh token it was last
      handed. It stops at the first failure, and keeps its token when refresh answers null. */
  function RefreshChain(s: Sessions, codes: PlatformCodes, kakao: Provider, refreshToken: Token, nows: seq<int>)
    : Reply<Token>
    decreases |nows|
  {
    if nows == [] then Reply(s, Success(refreshToken))
    else
      var step := Refresh(s, codes, kakao, refreshToken, nows[0]);
      match step.result
      case Failure(e) => Reply(step.state, Failure(e))
      case Success(None) => Reply(step.state, Success(refreshToken))
      case Success(Some(resp)) => RefreshChain(step.state, codes, kakao, resp.refreshToken, nows[1..])
  }

  // ---------------------------------------------------------------------------------------------------
  // Properties relating operations to one another.

  /** Right after login the issued access token passes the 2nd-tier check exactly until the access
      expiry login computed, now + the provider's access lifetime. */
  lemma LoginThenAuth(s: Sessions, codes: PlatformCodes, kakao: Provider, google: Provider,
                      platformCode: string, authCode: string, now: int)
    requires Login(s, codes, kakao, google, platformCode, authCode, now).result.Success?
    ensures var r := Login(s, codes, kakao, google, platformCode, authCode, now);
            var resp := r.result.value;
            var expiry := now + r.state.refreshTokens[resp.refreshToken].accessTokenExpire;
            forall later :: AuthAccessToken(r.state, resp.accessToken, later).Pass? <==> later <= expiry
  {
  }

  /** Right after login the issued access token passes the 1st-tier check exactly when the Kakao client
      names the provider user the login resolved, whichever provider the login went through. */
  lemma LoginThenFirstTier(s: Sessions, codes: PlatformCodes, kakao: Provider, google: Provider,
                           platformCode: string, authCode: string, now: int)
    requires Login(s, codes, kakao, google, platformCode, authCode, now).result.Success?
    ensures var r := Login(s, codes, kakao, google, platformCode, authCode, now);
            var p := ProviderFor(codes, kakao, google, platformCode).value;
            var user := p.getUser(p.getAccessToken(authCode).value.accessToken).value;
            var token := r.result.value.accessToken;
            AuthAccessTokenToKakao(r.state, codes, kakao, token).Pass? <==>
              kakao.authAccessToken(token) == Success(user.kakaoUserId)
  {
  }

  /** Whichever provider a login went through, the session is stored as a Kakao session, so a later
      refresh never takes the Google branch: it goes to the Kakao client. */
  lemma LoginThenRefreshUsesKakao(s: Sessions, codes: PlatformCodes, kakao: Provider, google: Provider,
                                  platformCode: string, authCode: string, now: int, later: int)
    requires Login(s, codes, kakao, google, platformCode, authCode, now).result.Success?
    ensures var r := Login(s, codes, kakao, google, platformCode, authCode, now);
            var t := r.result.value.refreshToken;
            var session := r.state.refreshTokens[t];
            && Refresh(r.state, codes, kakao, t, later).result != Success(None)
            && (kakao.refreshAccessToken(session.refreshToken, session.refreshTokenExpire).Failure? ==>
                  Refresh(r.state, codes, kakao, t, later).result
                  == Failure(kakao.refreshAccessToken(session.refreshToken, session.refreshTokenExpire).error))
  {
  }

  /** After a successful rotation the previous access token fails both checks at every instant, because
      it was re-saved as invalid after the new token was written. */
  lemma RefreshRevokesPrevious(s: Sessions, codes: PlatformCodes, kakao: Provider, refreshToken: Token, now: int)
    requires Refresh(s, codes, kakao, refreshToken, now).result.Success?
    requires Refresh(s, codes, kakao, refreshToken, now).result.value.Some?
    ensures var r := Refresh(s, codes, kakao, refreshToken, now);
            var previous := s.refreshTokens[refreshToken].accessToken;
            && (forall later :: AuthAccessToken(r.state, previous, later) == Fail(UnAuth(InvalidTokenFail)))
            && AuthAccessTokenToKakao(r.state, codes, kakao, previous) == Fail(UnAuth(InvalidTokenFail))
  {
  }

  /** The rotated access token passes the 2nd-tier check exactly until now + its provider lifetime, unless
      the provider re-issued the previous access token, in which case the later invalidating write wins
      and the token never passes. */
  lemma RefreshedTokenAuth(s: Sessions, codes: PlatformCodes, kakao: Provider, refreshToken: Token, now: int)
    requires Refresh(s, codes, kakao, refreshToken, now).result.Success?
    requires Refresh(s, codes, kakao, refreshToken, now).result.value.Some?
    ensures var r := Refresh(s, codes, kakao, refreshToken, now);
            var resp := r.result.value.value;
            var previous := s.refreshTokens[refreshToken].accessToken;
            var expiry := now + r.state.refreshTokens[resp.refreshToken].accessTokenExpire;
            forall later :: AuthAccessToken(r.state, resp.accessToken, later).Pass? <==>
                              resp.accessToken != previous && later <= expiry
  {
    var r := Refresh(s, codes, kakao, refreshToken, now);
    var session := s.refreshTokens[refreshToken];
    var issued := kakao.refreshAccessToken(session.refreshToken, session.refreshTokenExpire).value;
    assert r.result.value.value == RefreshTokenResponse(issued.accessToken, issued.refreshToken);
  }

  /** However often a session is rotated, the session the client ends up holding carries the absolute
      refresh expiry of the session it started from: rotation carries the absolute refresh expiry unchanged. */
  lemma {:induction false} RefreshChainKeepsSessionEnd(s: Sessions, codes: PlatformCodes, kakao: Provider,
                                                       refreshToken: Token, nows: seq<int>)
    requires refreshToken in s.refreshTokens
    ensures var r := RefreshChain(s, codes, kakao, refreshToken, nows);
            r.result.Success? ==>
              && r.result.value in r.state.refreshTokens
              && r.state.refreshTokens[r.result.value].refreshExpire == s.refreshTokens[refreshToken].refreshExpire
    decreases |nows|
  {
    if nows != [] {
      var step := Refresh(s, codes, kakao, refreshToken, nows[0]);
      if step.result.Success? && step.result.value.Some? {
        var session := s.refreshTokens[refreshToken];
        var issued := kakao.refreshAccessToken(session.refreshToken, session.refreshTokenExpire).value;
        var next := step.result.value.value.refreshToken;
        assert next == issued.refreshToken;
        RefreshChainKeepsSessionEnd(step.state, codes, kakao, next, nows[1..]);
      }
    }
  }

  /** Logout ends the session for good: its current access token fails the 2nd-tier check at every
      instant and a second logout with the same refresh token finds nothing. */
  lemma LogoutEndsSession(s: Sessions, refreshToken: Token)
    requires Logout(s, refreshToken).result.Success?
    ensures var r := Logout(s, refreshToken);
            var current := s.accessTokens[s.refreshTokens[refreshToken].accessToken].accessToken;
            && Logout(r.state, refreshToken) == Reply(r.state, Failure(UnAuth(SearchTokenFail)))
            && forall later :: AuthAccessToken(r.state, current, later) == Fail(UnAuth(InvalidTokenFail))
  {
  }

  /** login keeps every record under its own token and every session marked KAKAO. */
  lemma LoginKeepsWellformed(s: Sessions, codes: PlatformCodes, kakao: Provider, google: Provider,
                             platformCode: string, authCode: string, now: int)
    requires Wellformed(s, codes)
    ensures Wellformed(Login(s, codes, kakao, google, platformCode, authCode, now).state, codes)
  {
  }

  /** refresh keeps them too, also when it stops half-way. */
  lemma RefreshKeepsWellformed(s: Sessions, codes: PlatformCodes, kakao: Provider, token: Token, now: int)
    requires Wellformed(s, codes)
    ensures Wellformed(Refresh(s, codes, kakao, token, now).state, codes)
  {
  }

  /** logout keeps them too. */
  lemma LogoutKeepsWellformed(s: Sessions, codes: PlatformCodes, token: Token)
    requires Wellformed(s, codes)
    ensures Wellformed(Logout(s, token).state, codes)
  {
  }

  /** In a well-formed store refresh of a cached session always reaches the Kakao client: it never
      answers null, and it fails only when that client fails (with the client's error, nothing written)
      or when the member row is gone. */
  lemma WellformedRefreshIsKakao(s: Sessions, codes: PlatformCodes, kakao: Provider, refreshToken: Token, now: int)
    requires Wellformed(s, codes)
    requires refreshToken in s.refreshTokens
    ensures var r := Refresh(s, codes, kakao, refreshToken, now);
            var session := s.refreshTokens[refreshToken];
            var answer := kakao.refreshAccessToken(session.refreshToken, session.refreshTokenExpire);
            && (answer.Failure? ==> r == Reply(s, Failure(answer.error)))
            && (answer.Success? && session.memberId in s.members ==> r.result.Success? && r.result.value.Some?)
            && (answer.Success? && session.memberId !in s.members ==> r.result == Failure(UnAuth(KakaoGetTokenFail)))
  {
  }
}
