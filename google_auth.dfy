/**
 * Background message handler `google-auth`: opens the identity provider's page in a new tab,
 * listens for that tab to reach the extension's redirect URL, takes the tokens from the
 * redirect, exchanges them for a Supabase session, stores it under "supabase_session" and
 * settles a one-shot result; a 5-minute timer rejects the result if nothing else has.
 *
 * Host calls (URL parsing, the token exchange, the storage write, the sign-in call) are
 * inputs. Each tab-updated event and the timer are processed atomically.
 */
module GoogleAuth {
  import opened Wrappers
  import opened JsString

  /** A thrown or returned JavaScript error; only its `message` is observable. */
  datatype JsError = JsError(message: Option<string>)

  /** The session object the exchange returns; opaque to the handler. */
  datatype Session = Session(payload: string)

  const TimeoutError: JsError := JsError(Some("Authentication timeout"))
  const NoUrlError: JsError := JsError(Some("Failed to get OAuth URL"))
  const FallbackMessage: string := "Authentication failed"
  const AccessKey: string := "access_token"
  const RefreshKey: string := "refresh_token"

  /** The one-shot result: still pending, resolved with a session, or rejected. */
  datatype Settlement = Pending | Fulfilled(session: Session) | Rejected(error: JsError)

  /** What the caller receives: `{success, session?, error?}`. */
  datatype AuthReply = AuthReply(success: bool, session: Option<Session>, error: Option<string>)

  /** `error.message || "Authentication failed"` */
  function ErrorText(e: JsError): (t: string)
    ensures t != []
    ensures e.message.Some? && e.message.value != [] ==> t == e.message.value
    ensures t == FallbackMessage || e.message == Some(t)
  {
    if e.message.Some? && e.message.value != [] then e.message.value else FallbackMessage
  }

  /** The reply for a settled result. */
  function ReplyFor(s: Settlement): (r: AuthReply)
    requires !s.Pending?
    ensures r.success <==> s.Fulfilled?
    ensures r.success ==> r.session == Some(s.session) && r.error == None
    ensures !r.success ==> r.session == None && r.error.Some? && r.error.value != []
    ensures s.Rejected? ==> r.error == Some(ErrorText(s.error))
  {
    match s
    case Fulfilled(session) => AuthReply(true, Some(session), None)
    case Rejected(e) => AuthReply(false, None, Some(ErrorText(e)))
  }

  /** Query parameters of one part of a URL (`URLSearchParams`), by name. */
  type Params = map<string, string>

  /** `params.get(name)` */
  function Get(params: Params, name: string): Option<string> {
    if name in params then Some(params[name]) else None
  }

  /** JavaScript truthiness of a `string | null`. */
  predicate Truthy(t: Option<string>) {
    t.Some? && t.value != []
  }

  /** `name` is present with a non-empty value. */
  predicate HasValue(params: Params, name: string) {
    name in params && params[name] != []
  }

  /** `fragment.get(name) || query.get(name)`: an empty fragment value falls through to the query. */
  function PickToken(fragment: Params, query: Params, name: string): (t: Option<string>)
    ensures Truthy(t) <==> HasValue(fragment, name) || HasValue(query, name)
    ensures HasValue(fragment, name) ==> t == Some(fragment[name])
    ensures !HasValue(fragment, name) && HasValue(query, name) ==> t == Some(query[name])
  {
    var fromFragment := Get(fragment, name);
    if Truthy(fromFragment) then fromFragment else Get(query, name)
  }

  datatype TokenPair = TokenPair(accessToken: string, refreshToken: string)

  /** The tokens the listener goes on with, or None when either is missing or empty. */
  function ExtractTokens(fragment: Params, query: Params): (p: Option<TokenPair>)
    ensures p.Some? <==>
              (HasValue(fragment, AccessKey) || HasValue(query, AccessKey)) &&
              (HasValue(fragment, RefreshKey) || HasValue(query, RefreshKey))
    ensures p.Some? ==> p.value.accessToken != [] && p.value.refreshToken != []
    ensures p.Some? ==>
              p.value.accessToken == (if HasValue(fragment, AccessKey) then fragment[AccessKey] else query[AccessKey])
    ensures p.Some? ==>
              p.value.refreshToken == (if HasValue(fragment, RefreshKey) then fragment[RefreshKey] else query[RefreshKey])
  {
    var access := PickToken(fragment, query, AccessKey);
    var refresh := PickToken(fragment, query, RefreshKey);
    if Truthy(access) && Truthy(refresh) then Some(TokenPair(access.value, refresh.value)) else None
  }

  /** Parsing the tab's URL into fragment and query parameters, or the exception it throws. */
  datatype UrlParse = Parsed(fragment: Params, query: Params) | ParseThrew(error: JsError)

  /** `supabase.auth.setSession`: a session, a returned `error`, or an exception. */
  datatype Exchange = Exchanged(session: Session) | ExchangeRefused(error: JsError) | ExchangeThrew(error: JsError)

  /** `storage.set("supabase_session", ...)`: done, or an exception. */
  datatype StoreWrite = Stored | StoreThrew(error: JsError)

  /** `supabase.auth.signInWithOAuth`: its `data.url` (None when null), or an exception. */
  datatype SignIn = SignedIn(url: Option<string>) | SignInThrew(error: JsError)

  /** The tab-updated event is for the auth tab and its URL includes the redirect URL. */
  predicate IsRedirect(authTabId: int, redirectUrl: string, tabId: int, url: Option<string>): (r: bool)
    ensures r <==> tabId == authTabId && url.Some? && exists i :: OccursAt(url.value, redirectUrl, i)
  {
    if url.Some? then
      IncludesIffOccurs(url.value, redirectUrl);
      tabId == authTabId && Includes(url.value, redirectUrl)
    else
      false
  }

  /**
   * What one invocation of the listener does: nothing, or it closes the tab (once, or twice
   * when the storage write throws after the tab was closed), deregisters itself, maybe
   * stores a session, and settles the result.
   */
  datatype Effect = NoEffect | Settles(tabRemovals: nat, stored: Option<Session>, outcome: Settlement)

  function ListenerEffect(authTabId: int, redirectUrl: string, tabId: int, url: Option<string>,
                          parse: UrlParse, exchange: (string, string) -> Exchange, store: StoreWrite): (e: Effect)
    ensures !IsRedirect(authTabId, redirectUrl, tabId, url) ==> e == NoEffect
    ensures IsRedirect(authTabId, redirectUrl, tabId, url) && parse.ParseThrew? ==>
              e == Settles(1, None, Rejected(parse.error))
    ensures parse.Parsed? && ExtractTokens(parse.fragment, parse.query).None? ==> e == NoEffect
    ensures e.Settles? ==> !e.outcome.Pending? && 1 <= e.tabRemovals <= 2
    ensures e.Settles? ==> (e.stored.Some? <==> e.outcome.Fulfilled?)
    ensures e.Settles? && e.outcome.Fulfilled? ==>
              && e.stored == Some(e.outcome.session)
              && e.tabRemovals == 1
              && store == Stored
              && parse.Parsed?
              && var p := ExtractTokens(parse.fragment, parse.query);
                 p.Some? && exchange(p.value.accessToken, p.value.refreshToken) == Exchanged(e.outcome.session)
    ensures IsRedirect(authTabId, redirectUrl, tabId, url) && parse.Parsed? ==>
              var p := ExtractTokens(parse.fragment, parse.query);
              p.Some? ==>
                var x := exchange(p.value.accessToken, p.value.refreshToken);
                && (x.ExchangeRefused? || x.ExchangeThrew? ==> e == Settles(1, None, Rejected(x.error)))
                && (x.Exchanged? && store.StoreThrew? ==> e == Settles(2, None, Rejected(store.error)))
                && (x.Exchanged? && store.Stored? ==> e == Settles(1, Some(x.session), Fulfilled(x.session)))
  {
    if !IsRedirect(authTabId, redirectUrl, tabId, url) then NoEffect
    else match parse
      case ParseThrew(err) => Settles(1, None, Rejected(err))
      case Parsed(fragment, query) =>
        match ExtractTokens(fragment, query)
        case None => NoEffect
        case Some(tokens) =>
          match exchange(tokens.accessToken, tokens.refreshToken)
          case ExchangeThrew(err) => Settles(1, None, Rejected(err))
          case ExchangeRefused(err) => Settles(1, None, Rejected(err))
          case Exchanged(session) =>
            match store
            case StoreThrew(err) => Settles(2, None, Rejected(err))
            case Stored => Settles(1, Some(session), Fulfilled(session))
  }

  /**
   * One invocation of the handler. `result` is the handler's outcome: the promise the
   * listener and the timer race to settle, or the failure that prevented the flow from
   * starting; `reply` is what was sent back to the caller.
   */
  class AuthFlow {
    const redirectUrl: string
    /** What the "supabase_session" slot held before this invocation. */
    const priorSession: Option<Session>

    var authTabId: Option<int>
    var authTabOpen: bool
    /** `chrome.tabs.remove` calls issued for the auth tab. */
    var tabRemovals: nat
    var listenerRegistered: bool
    var timerArmed: bool
    /** The "supabase_session" slot of local storage. */
    var storedSession: Option<Session>
    var result: Settlement
    var reply: Option<AuthReply>

    ghost predicate Valid()
      reads this
    {
      && (listenerRegistered <==> result.Pending?)
      && (result.Pending? ==> timerArmed && authTabOpen)
      && (authTabOpen <==> authTabId.Some? && tabRemovals == 0)
      && (timerArmed ==> authTabId.Some?)
      && reply == (if result.Pending? then None else Some(ReplyFor(result)))
      && storedSession == (if result.Fulfilled? then Some(result.session) else priorSession)
    }

    /**
     * The handler up to the point where it waits: sign in; with a truthy URL, open the auth
     * tab (its id is `newTabId`), register the listener and start the timer; otherwise reply
     * with the error.
     */
    constructor Start(redirectUrl: string, priorSession: Option<Session>, signIn: SignIn, newTabId: int)
      ensures Valid()
      ensures this.redirectUrl == redirectUrl && this.priorSession == priorSession
      ensures storedSession == priorSession && tabRemovals == 0
      ensures signIn.SignedIn? && Truthy(signIn.url) ==>
                && authTabId == Some(newTabId) && authTabOpen
                && listenerRegistered && timerArmed
                && result == Pending && reply == None
      ensures signIn.SignedIn? && !Truthy(signIn.url) ==>
                && authTabId == None && !listenerRegistered && !timerArmed
                && result == Rejected(NoUrlError)
                && reply == Some(AuthReply(false, None, Some("Failed to get OAuth URL")))
      ensures signIn.SignInThrew? ==>
                && authTabId == None && !listenerRegistered && !timerArmed
                && result == Rejected(signIn.error)
                && reply == Some(AuthReply(false, None, Some(ErrorText(signIn.error))))
    {
      this.redirectUrl := redirectUrl;
      this.priorSession := priorSession;
      storedSession := priorSession;
      tabRemovals := 0;
      var failure: Option<JsError> := None;
      match signIn {
        case SignInThrew(err) => failure := Some(err);
        case SignedIn(url) => if !Truthy(url) { failure := Some(NoUrlError); }
      }
      if failure.Some? {
        authTabId, authTabOpen := None, false;
        listenerRegistered, timerArmed := false, false;
        result := Rejected(failure.value);
        reply := Some(ReplyFor(Rejected(failure.value)));
      } else {
        authTabId, authTabOpen := Some(newTabId), true;
        listenerRegistered := true;
        timerArmed := true;
        result := Pending;
        reply := None;
      }
    }

    /** `chrome.tabs.remove(authTab.id)` */
    method RemoveAuthTab()
      modifies this`authTabOpen, this`tabRemovals
      ensures !authTabOpen && tabRemovals == old(tabRemovals) + 1
    {
      authTabOpen := false;
      tabRemovals := tabRemovals + 1;
    }

    /** `resolve` / `reject`: only the first settlement has an effect; it sends the reply. */
    method Settle(s: Settlement)
      requires !s.Pending?
      modifies this`result, this`reply
      ensures result == (if old(result).Pending? then s else old(result))
      ensures reply == (if old(result).Pending? then Some(ReplyFor(s)) else old(reply))
    {
      if result.Pending? {
        result := s;
        reply := Some(ReplyFor(s));
      }
    }

    /** The tab-updated listener, if it is still registered, run for one event. */
    method OnTabUpdated(tabId: int, url: Option<string>, parse: UrlParse,
                        exchange: (string, string) -> Exchange, store: StoreWrite)
      requires Valid()
      modifies this
      ensures Valid()
      ensures authTabId == old(authTabId) && timerArmed == old(timerArmed)
      ensures !old(listenerRegistered) ==> unchanged(this)
      ensures old(listenerRegistered) ==>
                var e := ListenerEffect(old(authTabId).value, redirectUrl, tabId, url, parse, exchange, store);
                if e.NoEffect? then unchanged(this)
                else
                  && !listenerRegistered && !authTabOpen
                  && tabRemovals == e.tabRemovals
                  && result == e.outcome
                  && reply == Some(ReplyFor(e.outcome))
                  && storedSession == (if e.stored.Some? then e.stored else old(storedSession))
    {
      if !listenerRegistered {
        return;
      }
      if !(tabId == authTabId.value && url.Some? && Includes(url.value, redirectUrl)) {
        return;
      }
      match parse {
        case ParseThrew(err) =>
          RemoveAuthTab();
          listenerRegistered := false;
          Settle(Rejected(err));
        case Parsed(fragment, query) =>
          var accessToken := PickToken(fragment, query, AccessKey);
          var refreshToken := PickToken(fragment, query, RefreshKey);
          if Truthy(accessToken) && Truthy(refreshToken) {
            match exchange(accessToken.value, refreshToken.value) {
              case ExchangeThrew(err) =>
                RemoveAuthTab();
                listenerRegistered := false;
                Settle(Rejected(err));
              case ExchangeRefused(err) =>
                RemoveAuthTab();
                listenerRegistered := false;
                Settle(Rejected(err));
              case Exchanged(session) =>
                RemoveAuthTab();
                listenerRegistered := false;
                match store {
                  case StoreThrew(err) =>
                    RemoveAuthTab();
                    listenerRegistered := false;
                    Settle(Rejected(err));
                  case Stored =>
                    storedSession := Some(session);
                    Settle(Fulfilled(session));
                }
            }
          }
      }
    }

    /** The timer callback: deregister the listener and reject; the auth tab is left open. */
    method OnTimeout()
      requires Valid() && timerArmed
      modifies this
      ensures Valid()
      ensures !timerArmed && !listenerRegistered
      ensures result == (if old(result).Pending? then Rejected(TimeoutError) else old(result))
      ensures old(result).Pending? ==> reply == Some(AuthReply(false, None, Some("Authentication timeout")))
      ensures !old(result).Pending? ==> reply == old(reply)
      ensures authTabId == old(authTabId) && authTabOpen == old(authTabOpen) && tabRemovals == old(tabRemovals)
      ensures storedSession == old(storedSession)
    {
      timerArmed := false;
      listenerRegistered := false;
      Settle(Rejected(TimeoutError));
    }
  }

  /** Login completes; the timer, never cleared, fires later and changes nothing that matters. */
  method LoginThenLateTimeout()
  {
    var redirect := "https://ext.chromiumapp.org/";
    var flow := new AuthFlow.Start(redirect, None, SignedIn(Some("https://accounts.example/o/oauth2")), 7);
    var url := redirect + "#access_token=a&refresh_token=r";
    IncludesInfix([], redirect, "#access_token=a&refresh_token=r");
    assert [] + redirect + "#access_token=a&refresh_token=r" == url;
    var fragment := map[AccessKey := "a", RefreshKey := "r"];
    flow.OnTabUpdated(7, Some(url), Parsed(fragment, map[]), (access, refresh) => Exchanged(Session(access + refresh)), Stored);
    assert flow.result == Fulfilled(Session("ar"));
    assert flow.storedSession == Some(Session("ar"));
    assert !flow.authTabOpen && flow.tabRemovals == 1 && !flow.listenerRegistered;
    flow.OnTimeout();
    assert flow.result == Fulfilled(Session("ar"));
    assert flow.reply == Some(AuthReply(true, Some(Session("ar")), None));
  }

  /** No redirect ever arrives: the timer rejects, the listener goes, the auth tab stays open. */
  method TimeoutWithoutRedirect()
  {
    var flow := new AuthFlow.Start("https://ext.chromiumapp.org/", None, SignedIn(Some("https://accounts.example/o/oauth2")), 7);
    flow.OnTabUpdated(8, Some("https://ext.chromiumapp.org/#access_token=a"), ParseThrew(JsError(None)),
                      (access, refresh) => ExchangeThrew(JsError(None)), Stored);
    assert flow.result == Pending;
    flow.OnTimeout();
    assert flow.reply == Some(AuthReply(false, None, Some("Authentication timeout")));
    assert flow.authTabOpen && !flow.listenerRegistered && flow.tabRemovals == 0;
  }

  /** A redirect carrying an empty refresh token leaves the flow waiting. */
  method RedirectMissingToken()
  {
    var redirect := "https://ext.chromiumapp.org/";
    var flow := new AuthFlow.Start(redirect, None, SignedIn(Some("https://accounts.example/o/oauth2")), 7);
    var url := redirect + "?access_token=a&refresh_token=";
    IncludesInfix([], redirect, "?access_token=a&refresh_token=");
    assert [] + redirect + "?access_token=a&refresh_token=" == url;
    var query := map[AccessKey := "a", RefreshKey := ""];
    flow.OnTabUpdated(7, Some(url), Parsed(map[], query), (access, refresh) => Exchanged(Session(access)), Stored);
    assert flow.result == Pending && flow.listenerRegistered && flow.authTabOpen;
  }
}
