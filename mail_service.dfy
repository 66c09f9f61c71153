/** The mail service: bulk dispatch of one template to a list of recipients,
    and the registry queries it re-exports. Loading a template's markup and the
    HTTP call to the mail-sending service are external; `MailEnvironment`
    stands for them and records each external call it receives. */
module MailService {
  import opened Wrappers
  import Seqs
  import Templates

  /** The sender address every bulk message carries. */
  const Sender: string := "ventas@caribbeanxam.com"

  /** The endpoint, relative to the service's base URL, that takes a batch. */
  const SendBulkPath: string := "/mail/send-bulk"

  /** The message used when what was thrown is not an `Error`. */
  const FallbackMessage: string := "Failed to send bulk emails"

  /** A `string | string[]` address field. */
  datatype Addressees = One(address: string) | Many(addresses: seq<string>)

  datatype MailRequest = MailRequest(
    to: Addressees,
    subject: string,
    html: Option<string>,
    text: Option<string>,
    from: Option<string>,
    cc: Option<Addressees>,
    bcc: Option<Addressees>,
    replyTo: Option<string>)

  datatype MailResponse = MailResponse(success: bool, messageId: Option<string>, error: Option<string>)

  datatype BulkMailResponse = BulkMailResponse(results: seq<MailResponse>, totalSent: nat, totalFailed: nat)

  /** What a rejected promise carries: an `Error` with its message, or some
      other thrown value. */
  datatype Rejection = ErrorThrown(message: string) | OtherThrown

  /** How an awaited external call ends. */
  datatype Settled<T> = Fulfilled(value: T) | Rejected(reason: Rejection)

  /** One call to the outside world: a dynamic import of a template's raw
      markup, or a POST of a batch of messages. */
  datatype Call = Import(specifier: string) | Post(path: string, emails: seq<MailRequest>)

  /** The calls one dispatch makes, and what it returns or throws. */
  datatype Dispatched = Dispatched(calls: seq<Call>, result: Result<BulkMailResponse, string>)

  function TemplateNotFoundMessage(templateId: string): string
  {
    "Template with ID '" + templateId + "' not found"
  }

  function ContentNotFoundMessage(templateId: string): string
  {
    "Template content for '" + templateId + "' not found"
  }

  /** The message of the error the catch block rethrows. */
  function RethrownMessage(why: Rejection): (m: string)
    ensures why.ErrorThrown? ==> m == why.message
    ensures why.OtherThrown? ==> m == FallbackMessage
  {
    match why
    case ErrorThrown(message) => message
    case OtherThrown => FallbackMessage
  }

  /** `customSubject || template.subject`: an absent or empty custom subject
      falls back to the template's. */
  function EffectiveSubject(customSubject: Option<string>, templateSubject: string): (s: string)
    ensures customSubject.Some? && customSubject.value != "" ==> s == customSubject.value
    ensures customSubject.None? || customSubject.value == "" ==> s == templateSubject
  {
    if customSubject.Some? && customSubject.value != "" then customSubject.value else templateSubject
  }

  /** The message for one recipient. */
  function RequestFor(to: string, subject: string, html: string, text: Option<string>): MailRequest
  {
    MailRequest(One(to), subject, Some(html), text, Some(Sender), None, None, None)
  }

  /** One message per recipient, in recipient order; duplicates are kept. */
  function BuildRequests(emails: seq<string>, subject: string, html: string, text: Option<string>): (r: seq<MailRequest>)
    ensures |r| == |emails|
    ensures forall i | 0 <= i < |r| ::
      && r[i].to == One(emails[i])
      && r[i].subject == subject
      && r[i].html == Some(html)
      && r[i].text == text
      && r[i].from == Some(Sender)
      && r[i].cc.None? && r[i].bcc.None? && r[i].replyTo.None?
  {
    if emails == [] then []
    else [RequestFor(emails[0], subject, html, text)] + BuildRequests(emails[1..], subject, html, text)
  }

  function Succeeded(response: MailResponse): bool
  {
    response.success
  }

  function Failed(response: MailResponse): bool
  {
    !response.success
  }

  /** `results.filter(result => result.success).length` */
  function TotalSent(results: seq<MailResponse>): (n: nat)
    ensures n <= |results|
    ensures n == 0 <==> forall k | 0 <= k < |results| :: !results[k].success
  {
    var kept := Seqs.Filter(results, Succeeded);
    assert kept != [] ==> exists k | 0 <= k < |results| :: results[k] == kept[0];
    assert (exists k | 0 <= k < |results| :: Succeeded(results[k])) ==> kept != [];
    |kept|
  }

  /** `results.filter(result => !result.success).length` */
  function TotalFailed(results: seq<MailResponse>): (n: nat)
    ensures n <= |results|
    ensures n == 0 <==> forall k | 0 <= k < |results| :: results[k].success
  {
    var kept := Seqs.Filter(results, Failed);
    assert kept != [] ==> exists k | 0 <= k < |results| :: results[k] == kept[0];
    assert (exists k | 0 <= k < |results| :: Failed(results[k])) ==> kept != [];
    |kept|
  }

  /** Every result is counted exactly once, as sent or as failed. */
  lemma TotalsPartitionResults(results: seq<MailResponse>)
    ensures TotalSent(results) + TotalFailed(results) == |results|
  {
    Seqs.FilterPartition(results, Succeeded, Failed);
  }

  /** The summary built from a transport response. */
  function Summarize(results: seq<MailResponse>): (b: BulkMailResponse)
    ensures b.results == results
    ensures b.totalSent + b.totalFailed == |results|
    ensures b.totalSent == |Seqs.Filter(results, Succeeded)| && b.totalFailed == |Seqs.Filter(results, Failed)|
  {
    TotalsPartitionResults(results);
    BulkMailResponse(results, TotalSent(results), TotalFailed(results))
  }

  /** Everything `sendEmailBulk` does, given what the template's loader and the
      transport settle to: the external calls it makes, in order, and what it
      returns or throws. */
  function BulkDispatch(
    reg: Templates.Registry, emails: seq<string>, templateId: string,
    customSubject: Option<string>, textContent: Option<string>,
    load: string -> Settled<string>, respond: seq<MailRequest> -> Settled<seq<MailResponse>>): Dispatched
  {
    match Templates.FindById(reg.templates, templateId)
    case None => Dispatched([], Failure(TemplateNotFoundMessage(templateId)))
    case Some(template) =>
      if templateId !in reg.content then
        Dispatched([], Failure(ContentNotFoundMessage(templateId)))
      else
        var specifier := reg.content[templateId];
        match load(specifier)
        case Rejected(why) => Dispatched([Import(specifier)], Failure(RethrownMessage(why)))
        case Fulfilled(html) =>
          var batch := BuildRequests(emails, EffectiveSubject(customSubject, template.subject), html, textContent);
          match respond(batch)
          case Rejected(why) => Dispatched([Import(specifier), Post(SendBulkPath, batch)], Failure(RethrownMessage(why)))
          case Fulfilled(results) => Dispatched([Import(specifier), Post(SendBulkPath, batch)], Success(Summarize(results)))
  }

  /** The loader and the transport, as seen by the dispatcher. */
  class MailEnvironment {
    /** What importing each raw markup module settles to. */
    const load: string -> Settled<string>
    /** What the mail service answers to each batch. */
    const respond: seq<MailRequest> -> Settled<seq<MailResponse>>
    /** The external calls received so far, oldest first. */
    var calls: seq<Call>

    constructor (load: string -> Settled<string>, respond: seq<MailRequest> -> Settled<seq<MailResponse>>)
      ensures this.load == load && this.respond == respond && calls == []
    {
      this.load := load;
      this.respond := respond;
      calls := [];
    }

    /** A content loader: the dynamic import of one raw markup module. */
    method ImportRaw(specifier: string) returns (r: Settled<string>)
      modifies this`calls
      ensures calls == old(calls) + [Import(specifier)]
      ensures r == load(specifier)
    {
      calls := calls + [Import(specifier)];
      r := load(specifier);
    }

    /** The HTTP POST of a batch to the mail-sending service. */
    method PostBulk(path: string, emails: seq<MailRequest>) returns (r: Settled<seq<MailResponse>>)
      modifies this`calls
      ensures calls == old(calls) + [Post(path, emails)]
      ensures r == respond(emails)
    {
      calls := calls + [Post(path, emails)];
      r := respond(emails);
    }
  }

  /** `sendEmailBulk`: look the template up, check it has a loader, load its
      markup once, build one message per recipient, post them as one batch and
      count the outcomes; any failure is rethrown with its message. */
  method SendEmailBulk(
    env: MailEnvironment, reg: Templates.Registry, emails: seq<string>, templateId: string,
    customSubject: Option<string>, textContent: Option<string>)
    returns (r: Result<BulkMailResponse, string>)
    modifies env`calls
    ensures env.calls == old(env.calls) + BulkDispatch(reg, emails, templateId, customSubject, textContent, env.load, env.respond).calls
    ensures r == BulkDispatch(reg, emails, templateId, customSubject, textContent, env.load, env.respond).result
  {
    var found := Templates.FindById(reg.templates, templateId);
    if found.None? {
      return Failure(TemplateNotFoundMessage(templateId));
    }
    var template := found.value;
    if templateId !in reg.content {
      return Failure(ContentNotFoundMessage(templateId));
    }
    var loaded := env.ImportRaw(reg.content[templateId]);
    if loaded.Rejected? {
      return Failure(RethrownMessage(loaded.reason));
    }
    var subject := EffectiveSubject(customSubject, template.subject);
    var mailRequests := BuildRequests(emails, subject, loaded.value, textContent);
    var response := env.PostBulk(SendBulkPath, mailRequests);
    if response.Rejected? {
      return Failure(RethrownMessage(response.reason));
    }
    r := Success(Summarize(response.value));
  }

  /** An unknown template fails with its not-found message before any loader
      call or POST. */
  lemma UnknownTemplateFailsFast(
    reg: Templates.Registry, emails: seq<string>, templateId: string,
    customSubject: Option<string>, textContent: Option<string>,
    load: string -> Settled<string>, respond: seq<MailRequest> -> Settled<seq<MailResponse>>)
    requires forall k | 0 <= k < |reg.templates| :: reg.templates[k].id != templateId
    ensures BulkDispatch(reg, emails, templateId, customSubject, textContent, load, respond)
         == Dispatched([], Failure(TemplateNotFoundMessage(templateId)))
  {
  }

  /** A known template without a loader fails before any loader call or POST. */
  lemma MissingLoaderFailsFast(
    reg: Templates.Registry, emails: seq<string>, templateId: string,
    customSubject: Option<string>, textContent: Option<string>,
    load: string -> Settled<string>, respond: seq<MailRequest> -> Settled<seq<MailResponse>>)
    requires exists k | 0 <= k < |reg.templates| :: reg.templates[k].id == templateId
    requires templateId !in reg.content
    ensures BulkDispatch(reg, emails, templateId, customSubject, textContent, load, respond)
         == Dispatched([], Failure(ContentNotFoundMessage(templateId)))
  {
  }

  /** With the shipped registry the missing-loader failure cannot occur. */
  lemma ShippedNeverLacksLoader(
    emails: seq<string>, templateId: string,
    customSubject: Option<string>, textContent: Option<string>,
    load: string -> Settled<string>, respond: seq<MailRequest> -> Settled<seq<MailResponse>>)
    requires Templates.GetTemplateById(templateId).Some?
    ensures var d := BulkDispatch(Templates.Shipped, emails, templateId, customSubject, textContent, load, respond);
      |d.calls| > 0 && d.calls[0] == Import(Templates.TemplateContent[templateId])
  {
  }

  /** Once the template and its loader are found, the loader is called exactly
      once, first, whatever the number of recipients; a rejected load is
      rethrown and nothing is posted. */
  lemma LoaderCalledOnce(
    reg: Templates.Registry, emails: seq<string>, templateId: string,
    customSubject: Option<string>, textContent: Option<string>,
    load: string -> Settled<string>, respond: seq<MailRequest> -> Settled<seq<MailResponse>>)
    requires Templates.FindById(reg.templates, templateId).Some? && templateId in reg.content
    ensures var d := BulkDispatch(reg, emails, templateId, customSubject, textContent, load, respond);
      && 1 <= |d.calls| <= 2
      && d.calls[0] == Import(reg.content[templateId])
      && (forall k | 1 <= k < |d.calls| :: d.calls[k].Post?)
      && (load(reg.content[templateId]).Rejected? ==>
            d.calls == [Import(reg.content[templateId])]
            && d.result == Failure(RethrownMessage(load(reg.content[templateId]).reason)))
  {
  }

  /** Once the content is loaded, exactly one batch is posted: one message per
      recipient, in order, all with the same subject, markup, text and sender;
      a rejected POST is rethrown; otherwise the transport's results are
      returned unchanged together with their counts. */
  lemma LoadedContentPostsOneBatch(
    reg: Templates.Registry, emails: seq<string>, templateId: string,
    customSubject: Option<string>, textContent: Option<string>,
    load: string -> Settled<string>, respond: seq<MailRequest> -> Settled<seq<MailResponse>>)
    requires Templates.FindById(reg.templates, templateId).Some? && templateId in reg.content
    requires load(reg.content[templateId]).Fulfilled?
    ensures var d := BulkDispatch(reg, emails, templateId, customSubject, textContent, load, respond);
      var template := Templates.FindById(reg.templates, templateId).value;
      var html := load(reg.content[templateId]).value;
      var subject := EffectiveSubject(customSubject, template.subject);
      var batch := BuildRequests(emails, subject, html, textContent);
      && d.calls == [Import(reg.content[templateId]), Post(SendBulkPath, batch)]
      && |batch| == |emails|
      && (forall i | 0 <= i < |batch| :: batch[i].to == One(emails[i]))
      && (respond(batch).Rejected? ==> d.result == Failure(RethrownMessage(respond(batch).reason)))
      && (respond(batch).Fulfilled? ==>
            && d.result.Success?
            && d.result.value.results == respond(batch).value
            && d.result.value.totalSent + d.result.value.totalFailed == |respond(batch).value|)
  {
  }

  /** Two recipients of the test-event template, one delivered and one
      bounced: one sent, one failed. */
  lemma TwoRecipientScenario(load: string -> Settled<string>, respond: seq<MailRequest> -> Settled<seq<MailResponse>>)
    requires load("./test-event.html?raw").Fulfilled?
    requires forall batch :: respond(batch) == Fulfilled([
      MailResponse(true, Some("1"), None), MailResponse(false, None, Some("bounce"))])
    ensures var d := BulkDispatch(Templates.Shipped, ["a@x.com", "b@x.com"], "test-event", None, None, load, respond);
      && d.result.Success?
      && d.result.value.totalSent == 1
      && d.result.value.totalFailed == 1
  {
    Templates.FindByIdFirst(Templates.EmailTemplates, "test-event", 0);
  }

  function GetTemplateById(id: string): (r: Option<Templates.EmailTemplate>)
    ensures r == Templates.GetTemplateById(id)
  {
    Templates.GetTemplateById(id)
  }

  function GetAllTemplates(): (r: seq<Templates.EmailTemplate>)
    ensures r == Templates.GetAllTemplates()
  {
    Templates.GetAllTemplates()
  }

  function GetTemplatesByCategory(category: Templates.Category): (r: seq<Templates.EmailTemplate>)
    ensures r == Templates.GetTemplatesByCategory(category)
  {
    Templates.GetTemplatesByCategory(category)
  }
}
