/**
 * Content script `session-sync`: on page load it derives the site from the hostname, asks the
 * background whether the stored session is in sync and, if not, schedules a prompt whose button
 * sends a `copy-session` request; the outcome of that request is shown as a notice.
 * The messaging transport and the toast library are outside the model: requests sent and
 * notices shown are recorded, replies are inputs.
 */
module ContentScript {
  import opened Wrappers
  import opened JsString
  import CheckSyncStatus
  // Inside class SessionSync the method CheckSyncStatus hides the module name.
  import Background = CheckSyncStatus

  const SuccessSuffix: string := " session synced successfully!"

  /** The display name of the site: "Gradescope" for any hostname containing "gradescope". */
  function SiteName(hostname: string): (name: string)
    ensures name == "Gradescope" <==> Includes(hostname, "gradescope")
    ensures name == "Canvas" <==> !Includes(hostname, "gradescope")
  {
    if Includes(hostname, "gradescope") then "Gradescope" else "Canvas"
  }

  /** The key sent to the background, from the lower-cased display name. */
  function SiteKey(siteName: string): (key: string)
    ensures key == "gradescope" <==> ToLowerCase(siteName) == "gradescope"
    ensures key == "canvas" <==> ToLowerCase(siteName) != "gradescope"
  {
    if ToLowerCase(siteName) == "gradescope" then "gradescope" else "canvas"
  }

  /** The key is "gradescope" exactly for hostnames containing "gradescope", "canvas" otherwise. */
  lemma SiteKeyOfHost(hostname: string)
    ensures SiteKey(SiteName(hostname)) == (if Includes(hostname, "gradescope") then "gradescope" else "canvas")
  {
  }

  /** Whatever the hostname, the background files the session under gradescope or courseworks. */
  lemma NeverMiscellaneous(hostname: string)
    ensures CheckSyncStatus.CookiesTypeOf(Some(SiteKey(SiteName(hostname)))) != CheckSyncStatus.Miscellaneous
    ensures CheckSyncStatus.CookiesTypeOf(Some(SiteKey(SiteName(hostname)))) ==
              (if Includes(hostname, "gradescope") then CheckSyncStatus.Gradescope else CheckSyncStatus.Courseworks)
  {
  }

  /** The Gradescope host the script is injected into is classified as gradescope. */
  lemma GradescopeHost()
    ensures SiteKey(SiteName("www.gradescope.com")) == "gradescope"
  {
    var host := "www.gradescope.com";
    IncludesInfix("www.", "gradescope", ".com");
    assert "www." + "gradescope" + ".com" == host;
    SiteKeyOfHost(host);
  }

  /** The Courseworks host the script is injected into is classified as canvas. */
  lemma CourseworksHost()
    ensures SiteKey(SiteName("courseworks2.columbia.edu")) == "canvas"
  {
    var host := "courseworks2.columbia.edu";
    NotIncludesWithoutFirstChar(host, "gradescope");
    SiteKeyOfHost(host);
  }

  /** `!response.success || !response.inSync`: the prompt is suppressed only when both are true. */
  predicate ShouldPrompt(response: CheckSyncStatus.StatusResponse): (r: bool)
    ensures !response.success ==> r
    ensures !r <==> response.success && response.inSync
  {
    !response.success || !response.inSync
  }

  /**
   * Composed with the background handler: the prompt is suppressed exactly when the store
   * answers with a row of (CurrentUserId, category of the page) whose `in_sync` is `true`.
   */
  lemma PromptUnlessRowInSync(hostname: string, store: CheckSyncStatus.RowKey -> CheckSyncStatus.QueryOutcome)
    ensures var key := CheckSyncStatus.RowKey(CheckSyncStatus.CurrentUserId,
                                              CheckSyncStatus.CookiesTypeOf(Some(SiteKey(SiteName(hostname)))));
            !ShouldPrompt(CheckSyncStatus.Handle(Some(SiteKey(SiteName(hostname))), store)) <==>
            store(key) == CheckSyncStatus.Answered(Some(CheckSyncStatus.Row(CheckSyncStatus.JsonBool(true))), None)
  {
  }

  /** The toast offering to sync, with the site whose key its button sends. */
  datatype Prompt = Prompt(title: string, description: string, buttonLabel: string, site: string)

  function PromptFor(siteName: string): (p: Prompt)
    ensures p.site == "gradescope" || p.site == "canvas"
    ensures CheckSyncStatus.CookiesTypeOf(Some(p.site)) != CheckSyncStatus.Miscellaneous
  {
    Prompt("Sync " + siteName + " Session",
           "Keep your " + siteName + " session in sync with HomeworkCenter for seamless access across devices.",
           "Sync " + siteName,
           SiteKey(siteName))
  }

  /**
   * For every page: the prompt's button is labelled with the site it names, the success text
   * of the key it syncs names that same site, and that key is never filed as miscellaneous.
   */
  lemma PromptSyncsNamedSite(hostname: string)
    ensures var p := PromptFor(SiteName(hostname));
            && p.title == "Sync " + SiteName(hostname) + " Session"
            && p.buttonLabel == "Sync " + SiteName(hostname)
            && SuccessText(p.site) == SiteName(hostname) + SuccessSuffix
            && CheckSyncStatus.CookiesTypeOf(Some(p.site)) ==
                 (if Includes(hostname, "gradescope") then CheckSyncStatus.Gradescope else CheckSyncStatus.Courseworks)
  {
  }

  /** `{url, id}` of the tab a `copy-session` request describes; `id` is null from the content script. */
  datatype TabInfo = TabInfo(url: string, id: Option<int>)

  /** Messages sent to the background. */
  datatype Message = CheckSyncStatusRequest(site: string) | CopySessionRequest(tab: TabInfo, site: string)

  /** Notices shown by `successToast` / `errorToast`. */
  datatype Notice = SuccessNotice(text: string) | ErrorNotice(text: string)

  /** Awaiting the `check-sync-status` request: the response, or the exception it throws. */
  datatype StatusReply = StatusAnswered(response: CheckSyncStatus.StatusResponse) | StatusThrew(message: Option<string>)

  /** Awaiting the `copy-session` request: the `success` of the response, or the exception. */
  datatype CopyReply = CopyAnswered(success: bool) | CopyThrew(message: Option<string>)

  /** The first letter of the key upper-cased, then " session synced successfully!". */
  function SuccessText(site: string): (t: string)
    ensures |t| == |site| + |SuccessSuffix|
    ensures t[|site|..] == SuccessSuffix
    ensures site != [] ==> t[0] == UpperChar(site[0]) && t[1..|site|] == site[1..]
  {
    CapitalizeFirst(site) + SuccessSuffix
  }

  const FailurePrefix: string := "Failed to sync "
  const FailureSuffix: string := " session"

  /** "Failed to sync <site> session", with the key as sent (not capitalised). */
  function FailureText(site: string): (t: string)
    ensures |t| == |FailurePrefix| + |site| + |FailureSuffix|
    ensures t[..|FailurePrefix|] == FailurePrefix
    ensures t[|FailurePrefix|..|FailurePrefix| + |site|] == site
    ensures t[|FailurePrefix| + |site|..] == FailureSuffix
  {
    FailurePrefix + site + FailureSuffix
  }

  const ExceptionPrefix: string := "Error syncing session: "

  /** `Error syncing session: ${error.message}`; an undefined message renders as "undefined". */
  function ExceptionText(message: Option<string>): (t: string)
    ensures |ExceptionPrefix| <= |t| && t[..|ExceptionPrefix|] == ExceptionPrefix
    ensures message.Some? ==> t[|ExceptionPrefix|..] == message.value
    ensures message.None? ==> t[|ExceptionPrefix|..] == "undefined"
  {
    ExceptionPrefix + (if message.Some? then message.value else "undefined")
  }

  /** The notice for the outcome of a `copy-session` request for `site`. */
  function SyncNotice(site: string, reply: CopyReply): (n: Notice)
    ensures n.SuccessNotice? <==> reply == CopyAnswered(true)
    ensures reply == CopyAnswered(false) ==> n == ErrorNotice(FailureText(site))
    ensures n.SuccessNotice? ==> n.text == CapitalizeFirst(site) + SuccessSuffix
    ensures reply.CopyThrew? ==> n == ErrorNotice(ExceptionText(reply.message))
  {
    match reply
    case CopyAnswered(success) => if success then SuccessNotice(SuccessText(site)) else ErrorNotice(FailureText(site))
    case CopyThrew(message) => ErrorNotice(ExceptionText(message))
  }

  /** For the key the page sends, the success text names the site as the prompt does. */
  lemma SuccessTextNamesSite(hostname: string)
    ensures SuccessText(SiteKey(SiteName(hostname))) == SiteName(hostname) + SuccessSuffix
  {
  }

  /** The component's state: its two flags, and what it has sent and shown so far. */
  class SessionSync {
    var isSyncing: bool
    var shouldShowToast: bool
    /** The prompt handed to the 500 ms timer, if any. */
    var scheduledPrompt: Option<Prompt>
    var sent: seq<Message>
    var notices: seq<Notice>
    /** Sites of `copy-session` requests whose replies have not arrived yet, oldest first. */
    var outstanding: seq<string>

    ghost predicate Valid()
      reads this
    {
      && (isSyncing ==> outstanding != [])
      && (scheduledPrompt.Some? ==> scheduledPrompt.value.site == "gradescope" || scheduledPrompt.value.site == "canvas")
    }

    constructor ()
      ensures Valid()
      ensures !isSyncing && !shouldShowToast && scheduledPrompt == None
      ensures sent == [] && notices == [] && outstanding == []
    {
      isSyncing, shouldShowToast := false, false;
      scheduledPrompt := None;
      sent, notices, outstanding := [], [], [];
    }

    /** `checkSyncStatus`, run once on mount, with `reply` the outcome of the request it sends. */
    method CheckSyncStatus(hostname: string, reply: StatusReply)
      requires Valid()
      modifies this
      ensures Valid()
      ensures sent == old(sent) + [CheckSyncStatusRequest(SiteKey(SiteName(hostname)))]
      ensures shouldShowToast == (old(shouldShowToast) || reply.StatusThrew? || ShouldPrompt(reply.response))
      ensures scheduledPrompt ==
                if reply.StatusAnswered? && ShouldPrompt(reply.response) then Some(PromptFor(SiteName(hostname)))
                else old(scheduledPrompt)
      ensures isSyncing == old(isSyncing) && notices == old(notices) && outstanding == old(outstanding)
    {
      var siteName := SiteName(hostname);
      var siteKey := SiteKey(siteName);
      sent := sent + [CheckSyncStatusRequest(siteKey)];
      match reply {
        case StatusThrew(_) =>
          shouldShowToast := true;
        case StatusAnswered(response) =>
          if !response.success || !response.inSync {
            shouldShowToast := true;
            scheduledPrompt := Some(PromptFor(siteName));
          }
      }
    }

    /** `handleSyncSession(site)` up to its `await`: raise the flag and send the request. */
    method StartSyncSession(site: string, href: string)
      requires Valid()
      modifies this
      ensures Valid() && isSyncing
      ensures sent == old(sent) + [CopySessionRequest(TabInfo(href, None), site)]
      ensures outstanding == old(outstanding) + [site]
      ensures shouldShowToast == old(shouldShowToast) && scheduledPrompt == old(scheduledPrompt)
      ensures notices == old(notices)
    {
      isSyncing := true;
      var tabInfo := TabInfo(href, None);
      sent := sent + [CopySessionRequest(tabInfo, site)];
      outstanding := outstanding + [site];
    }

    /** A click on the prompt's button: `handleSyncSession` with the key the prompt was built for. */
    method ClickSyncButton(href: string)
      requires Valid() && scheduledPrompt.Some?
      modifies this
      ensures Valid() && isSyncing
      ensures sent == old(sent) + [CopySessionRequest(TabInfo(href, None), old(scheduledPrompt).value.site)]
      ensures outstanding == old(outstanding) + [old(scheduledPrompt).value.site]
      ensures Background.CookiesTypeOf(Some(old(scheduledPrompt).value.site)) != Background.Miscellaneous
      ensures shouldShowToast == old(shouldShowToast) && scheduledPrompt == old(scheduledPrompt)
      ensures notices == old(notices)
    {
      StartSyncSession(scheduledPrompt.value.site, href);
    }

    /** The rest of `handleSyncSession` once request `i` is answered: show a notice, lower the flag. */
    method FinishSyncSession(i: nat, reply: CopyReply)
      requires Valid() && i < |outstanding|
      modifies this
      ensures Valid() && !isSyncing
      ensures outstanding == old(outstanding[..i] + outstanding[i + 1..])
      ensures notices == old(notices) + [SyncNotice(old(outstanding[i]), reply)]
      ensures sent == old(sent) && shouldShowToast == old(shouldShowToast) && scheduledPrompt == old(scheduledPrompt)
    {
      var site := outstanding[i];
      outstanding := outstanding[..i] + outstanding[i + 1..];
      match reply {
        case CopyAnswered(success) =>
          if success {
            notices := notices + [SuccessNotice(SuccessText(site))];
          } else {
            notices := notices + [ErrorNotice(FailureText(site))];
          }
        case CopyThrew(message) =>
          notices := notices + [ErrorNotice(ExceptionText(message))];
      }
      isSyncing := false;
    }
  }

  /** A Gradescope page with no stored record: prompt, click, successful sync. */
  method SyncFromPrompt(hostname: string, href: string)
    requires Includes(hostname, "gradescope")
  {
    var view := new SessionSync();
    var noRecord := CheckSyncStatus.StatusResponse(false, false, Some(CheckSyncStatus.NoRecordMessage), None);
    SiteKeyOfHost(hostname);
    view.CheckSyncStatus(hostname, StatusAnswered(noRecord));
    assert view.shouldShowToast && view.scheduledPrompt.Some?;
    assert view.scheduledPrompt.value.site == "gradescope";
    view.ClickSyncButton(href);
    assert view.isSyncing;
    assert view.sent == [CheckSyncStatusRequest("gradescope"), CopySessionRequest(TabInfo(href, None), "gradescope")];
    view.FinishSyncSession(0, CopyAnswered(true));
    SuccessTextNamesSite(hostname);
    assert view.notices == [SuccessNotice("Gradescope" + SuccessSuffix)];
    assert !view.isSyncing && view.outstanding == [];
  }
}
