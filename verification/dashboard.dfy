/**
 * The dashboard's client-side logic: the state its handlers update, the
 * guards that keep them from sending a request, the caption-length
 * classification and the publish button's enabled state. Each handler is one
 * step; the toast it raises is reported by its title.
 */
module Dashboard {
  import opened Wrappers
  import opened GraphApi
  import opened Text

  /** The caption limit and the threshold of the warning colour. */
  const MaxCaption := 2200
  const WarnAbove := 1800

  datatype LengthLabel = TooLong | AlmostFull | GoodLength

  /** The label shown beside the character count. */
  function Classify(count: int): (l: LengthLabel)
    ensures l == TooLong <==> count > MaxCaption
    ensures l == AlmostFull <==> WarnAbove < count <= MaxCaption
    ensures l == GoodLength <==> count <= WarnAbove
  {
    if count > MaxCaption then TooLong else if count > WarnAbove then AlmostFull else GoodLength
  }

  function Severity(l: LengthLabel): nat {
    match l
    case GoodLength => 0
    case AlmostFull => 1
    case TooLong => 2
  }

  /** A longer caption never gets a milder label. */
  lemma ClassifyMonotone(a: int, b: int)
    requires a <= b
    ensures Severity(Classify(a)) <= Severity(Classify(b))
  {
  }

  function LabelText(l: LengthLabel): string {
    match l
    case TooLong => "Too long"
    case AlmostFull => "Almost full"
    case GoodLength => "Good length"
  }

  /** The label's text and the progress bar share one colour per label. */
  function Hue(l: LengthLabel): string {
    match l
    case TooLong => "red"
    case AlmostFull => "amber"
    case GoodLength => "green"
  }

  function LabelClass(l: LengthLabel): string { "text-" + Hue(l) + "-500" }

  function BarClass(l: LengthLabel): string { "bg-" + Hue(l) + "-500" }

  function CountClass(count: int): string {
    if count > MaxCaption then "text-red-500 font-bold" else "text-slate-600 dark:text-slate-400"
  }

  /** The components' emptiness test on text, `!text.trim()`. */
  function TrimsToEmpty(text: string): (r: bool)
    ensures r <==> IsBlank(text)
  {
    Trim(text) == ""
  }

  /** The label beside the count reads "Too long", "Almost full" and "Good
      length" on the three ranges, and the count itself turns bold red
      exactly above the limit. */
  lemma LengthLabelText(count: int)
    ensures LabelText(Classify(count)) == "Too long" <==> count > MaxCaption
    ensures LabelText(Classify(count)) == "Almost full" <==> WarnAbove < count <= MaxCaption
    ensures LabelText(Classify(count)) == "Good length" <==> count <= WarnAbove
    ensures CountClass(count) == "text-red-500 font-bold" <==> count > MaxCaption
  {
  }

  /** The label and the progress bar agree in colour: both turn red exactly
      above the limit, amber exactly in the warning band, and green otherwise. */
  lemma {:induction false} LengthColoursAgree(count: int)
    ensures LabelClass(Classify(count)) == "text-red-500" <==> count > MaxCaption
    ensures BarClass(Classify(count)) == "bg-red-500" <==> count > MaxCaption
    ensures LabelClass(Classify(count)) == "text-amber-500" <==> WarnAbove < count <= MaxCaption
    ensures BarClass(Classify(count)) == "bg-amber-500" <==> WarnAbove < count <= MaxCaption
    ensures LabelClass(Classify(count)) == "text-green-500" <==> count <= WarnAbove
    ensures BarClass(Classify(count)) == "bg-green-500" <==> count <= WarnAbove
  {
    // each class is told apart by the first letter of its hue
    var l := Classify(count);
    assert LabelClass(l)[5] == Hue(l)[0];
    assert BarClass(l)[3] == Hue(l)[0];
  }

  /** A caption of characters outside the Basic Multilingual Plane (most emoji,
      though not those such as U+2728 that lie inside it) counts two code
      units per character: 1101 of them already exceed the limit, and the
      publish button is disabled. */
  lemma AstralCaptionTooLong(caption: string, selected: string)
    requires forall i | 0 <= i < |caption| :: IsAstral(caption[i])
    requires 2 * |caption| > MaxCaption
    ensures Classify(Utf16Length(caption)) == TooLong
    ensures PublishDisabled(false, caption, selected, Utf16Length(caption))
  {
    Utf16LengthAllAstral(caption);
  }

  /** The publish button is disabled exactly while publishing, for blank
      content, with no account selected, or above the limit. */
  function PublishDisabled(isPublishing: bool, summarized: string, selected: string, count: int): (r: bool)
    ensures r <==> isPublishing || IsBlank(summarized) || selected == "" || count > MaxCaption
  {
    isPublishing || TrimsToEmpty(summarized) || selected == "" || count > MaxCaption
  }

  /** The summarize button is disabled while summarizing or for blank content. */
  function SummarizeDisabled(isSummarizing: bool, original: string): (r: bool)
    ensures r <==> isSummarizing || IsBlank(original)
  {
    isSummarizing || TrimsToEmpty(original)
  }

  /** Content that passes the client's guard also passes the server's: it is a
      non-empty string, and so is the selected account. */
  lemma {:induction false} ClientGuardImpliesServerGuard(summarized: string, selected: string)
    requires !IsBlank(summarized) && selected != ""
    ensures Truthy(Some(selected)) && Truthy(Some(summarized))
  {
    if summarized == "" {
      assert IsBlank(summarized);
    }
  }

  /** The converse fails: the server tests only for the empty string, so
      whitespace-only content reaches it from any other client. */
  lemma ServerAcceptsBlankContent()
    ensures IsBlank(" ") && Truthy(Some(" "))
  {
  }

  /** The application's own endpoints the dashboard fetches. */
  datatype Endpoint = ProfileEndpoint | PagesEndpoint | AccountsEndpoint {
    function Path(): string {
      match this
      case ProfileEndpoint => "/api/user/profile"
      case PagesEndpoint => "/api/facebook/pages"
      case AccountsEndpoint => "/api/instagram/accounts"
    }
  }

  const LoadFailed := "Failed to load your account data. Please try logging in again."

  /** The toasts the handlers raise, by title. */
  datatype Toast = EmptyContent | Summarized | SummarizeFailed | NoAccount | PublishedOk | PublishFailed {
    function Title(): string {
      match this
      case EmptyContent => "Empty Content"
      case Summarized => "Content Summarized"
      case SummarizeFailed => "Summarization Failed"
      case NoAccount => "No Account Selected"
      case PublishedOk => "Published Successfully"
      case PublishFailed => "Publishing Failed"
    }
  }

  /** The body posted to the publish endpoint. */
  datatype PublishRequest = PublishRequest(instagramAccountId: string, content: string)

  class DashboardState {
    var user: Option<UserData>
    var pages: seq<PageEntry>
    var instagramAccounts: seq<LinkedAccount>
    var selectedAccount: string
    var originalContent: string
    var summarizedContent: string
    var isLoading: bool
    var isSummarizing: bool
    var isPublishing: bool
    var characterCount: int
    var error: string

    /** The effect on `summarizedContent` keeps the count equal to its
        `length`, in UTF-16 code units. */
    ghost predicate Valid()
      reads this
    {
      characterCount == Utf16Length(summarizedContent)
    }

    /** The button's state on the current fields. */
    function PublishEnabled(): (r: bool)
      reads this
      requires Valid()
      ensures r <==> !isPublishing && !IsBlank(summarizedContent) && selectedAccount != "" && Utf16Length(summarizedContent) <= MaxCaption
    {
      !PublishDisabled(isPublishing, summarizedContent, selectedAccount, characterCount)
    }

    constructor ()
      ensures Valid()
      ensures user == None && pages == [] && instagramAccounts == [] && selectedAccount == ""
      ensures originalContent == "" && summarizedContent == "" && error == ""
      ensures !isLoading && !isSummarizing && !isPublishing
    {
      user, pages, instagramAccounts, selectedAccount := None, [], [], "";
      originalContent, summarizedContent, characterCount, error := "", "", 0, "";
      isLoading, isSummarizing, isPublishing := false, false, false;
    }

    /** Typing into the summary: the count follows the text. */
    method EditSummary(s: string)
      requires Valid()
      modifies this`summarizedContent, this`characterCount
      ensures Valid() && summarizedContent == s
    {
      summarizedContent := s;
      characterCount := Utf16Length(s);
    }

    /** The initial load, when signed in: the profile, then the pages, then
        (only when there are pages) the accounts, auto-selecting the first.
        A reply is `None` when the response was not ok; the first failure
        stops the load and sets the error banner. `requested` lists the
        endpoints fetched, in order. */
    method LoadUserData(signedIn: bool, profile: Option<UserData>, pagesReply: Option<seq<PageEntry>>,
                        accountsReply: Option<seq<LinkedAccount>>)
      returns (requested: seq<Endpoint>)
      requires Valid()
      modifies this`isLoading, this`error, this`user, this`pages, this`instagramAccounts, this`selectedAccount
      ensures Valid()
      ensures !signedIn ==> requested == [] && isLoading == old(isLoading) && error == old(error)
      ensures !signedIn || profile.None? ==> user == old(user)
      ensures !signedIn || profile.None? || pagesReply.None? ==> pages == old(pages)
      ensures signedIn ==> !isLoading
      ensures signedIn && profile.None? ==> requested == [ProfileEndpoint] && error == LoadFailed
      ensures signedIn && profile.Some? ==> user == profile
      ensures signedIn && profile.Some? && pagesReply.None? ==>
        requested == [ProfileEndpoint, PagesEndpoint] && error == LoadFailed
      ensures signedIn && profile.Some? && pagesReply.Some? ==> pages == pagesReply.value
      // accounts are fetched only when there are pages
      ensures signedIn && profile.Some? && pagesReply.Some? && |pagesReply.value| == 0 ==>
        requested == [ProfileEndpoint, PagesEndpoint] && error == old(error)
      ensures signedIn && profile.Some? && pagesReply.Some? && |pagesReply.value| > 0 ==>
        && requested == [ProfileEndpoint, PagesEndpoint, AccountsEndpoint]
        && (accountsReply.None? ==> error == LoadFailed)
        && (accountsReply.Some? ==> error == old(error) && instagramAccounts == accountsReply.value)
      ensures !(signedIn && profile.Some? && pagesReply.Some? && |pagesReply.value| > 0 && accountsReply.Some?) ==>
        instagramAccounts == old(instagramAccounts)
      // the first account is selected when any exist; otherwise the selection stays
      ensures selectedAccount ==
        if signedIn && profile.Some? && pagesReply.Some? && |pagesReply.value| > 0
           && accountsReply.Some? && |accountsReply.value| > 0
        then accountsReply.value[0].id else old(selectedAccount)
    {
      requested := [];
      if !signedIn {
        return;
      }
      isLoading := true;
      requested := requested + [ProfileEndpoint];
      if profile.None? {
        error := LoadFailed;
      } else {
        user := profile;
        requested := requested + [PagesEndpoint];
        if pagesReply.None? {
          error := LoadFailed;
        } else {
          pages := pagesReply.value;
          if |pagesReply.value| > 0 {
            requested := requested + [AccountsEndpoint];
            if accountsReply.None? {
              error := LoadFailed;
            } else {
              instagramAccounts := accountsReply.value;
              if |accountsReply.value| > 0 {
                selectedAccount := accountsReply.value[0].id;
              }
            }
          }
        }
      }
      isLoading := false;
    }

    /** `handleSummarize`: blank original content raises a toast and sends
        nothing; otherwise the original content is posted and, when a summary
        comes back (`summary` is `None` when the request failed), it replaces
        the summarized content. */
    method HandleSummarize(summary: Option<string>) returns (sent: Option<string>, toast: Toast)
      requires Valid()
      modifies this`summarizedContent, this`characterCount, this`isSummarizing
      ensures Valid()
      ensures IsBlank(old(originalContent)) ==>
        && sent == None && toast == EmptyContent
        && summarizedContent == old(summarizedContent) && isSummarizing == old(isSummarizing)
      ensures !IsBlank(old(originalContent)) ==>
        && sent == Some(old(originalContent)) && !isSummarizing
        && summarizedContent == summary.GetOr(old(summarizedContent))
        && toast == if summary.Some? then Summarized else SummarizeFailed
    {
      if TrimsToEmpty(originalContent) {
        return None, EmptyContent;
      }
      isSummarizing := true;
      sent := Some(originalContent);
      if summary.Some? {
        EditSummary(summary.value);
        toast := Summarized;
      } else {
        toast := SummarizeFailed;
      }
      isSummarizing := false;
    }

    /** `handlePublish`: the blank-content guard comes first, then the
        account guard; each raises its toast and sends nothing. Otherwise the
        selected account and the summarized content are posted (the length is
        not re-checked here); `accepted` is whether the response was ok. A
        success clears both texts; a failure leaves them. */
    method HandlePublish(accepted: bool) returns (sent: Option<PublishRequest>, toast: Toast)
      requires Valid()
      modifies this`summarizedContent, this`characterCount, this`originalContent, this`isPublishing
      ensures Valid()
      ensures IsBlank(old(summarizedContent)) ==> sent == None && toast == EmptyContent
      ensures !IsBlank(old(summarizedContent)) && old(selectedAccount) == "" ==> sent == None && toast == NoAccount
      ensures sent.None? ==>
        && summarizedContent == old(summarizedContent) && originalContent == old(originalContent)
        && isPublishing == old(isPublishing)
      ensures !IsBlank(old(summarizedContent)) && old(selectedAccount) != "" ==>
        && sent == Some(PublishRequest(old(selectedAccount), old(summarizedContent)))
        && !isPublishing
        && toast == (if accepted then PublishedOk else PublishFailed)
        && (accepted ==> summarizedContent == "" && originalContent == "" && characterCount == 0)
        && (!accepted ==> summarizedContent == old(summarizedContent) && originalContent == old(originalContent))
    {
      var blank := TrimsToEmpty(summarizedContent);
      if blank {
        sent, toast := None, EmptyContent;
      } else if selectedAccount == "" {
        sent, toast := None, NoAccount;
      } else {
        isPublishing := true;
        sent := Some(PublishRequest(selectedAccount, summarizedContent));
        if accepted {
          toast := PublishedOk;
          summarizedContent, characterCount := "", 0;
          originalContent := "";
        } else {
          toast := PublishFailed;
        }
        isPublishing := false;
      }
    }
  }
}
