# CaribbeanXam email manager: template registry, bulk dispatch and recipient list

This project models, in Dafny, the logic of a small email manager. The
manager keeps a list of recipients and sends one chosen email template to
all of them in a single batch. The model has three parts.

- **Template registry** (`templates.dfy`, module `Templates`). The registry
  is a fixed, ordered catalog of three templates: `test-event`,
  `promotion-offer` and `newsletter`. It also has a loader table that maps
  each template id to the raw markup module its content is imported from.
  Three queries run over the catalog: lookup by id (first match), filter by
  category (order kept) and list all. The model proves that catalog ids are
  distinct, that each entry is found by its own id, and that the loader
  table's keys are exactly the catalog ids.
- **Bulk dispatch** (`mail_service.dfy`, module `MailService`).
  `sendEmailBulk` checks its inputs in order and stops at the first failure:
  first the template lookup, then the loader lookup. It then loads the
  markup once and picks the subject (the custom subject if it is non-empty,
  otherwise the template's). It builds one message per recipient, in order,
  all with the same subject, markup, text and sender. It posts them as one
  batch and counts the successes and failures in the response. Any failure
  is rethrown as an error carrying the original message. The loader and the
  transport are external. `MailEnvironment` stands for both: a dynamic
  import returns whatever its `load` function says, and a POST returns
  whatever its `respond` function says. Each call is recorded in `calls`.
  The method `SendEmailBulk` is proved against the function
  `BulkDispatch`, which gives the calls made and the value returned or
  error thrown. The properties are lemmas about `BulkDispatch`.
- **Recipient list** (`home.dfy`, module `Home`). This is the page state:
  the list, the input box, the error and success notices, the loading flag
  and the selected template. Its handlers are modelled as the class
  `EmailManager`. The address check is a hand-written predicate, proved
  equivalent to the language of the page's regular expression. Adding
  rejects blank input, validates the input as typed (untrimmed), lowercases
  it and rejects duplicates.
  Removing an address filters out every occurrence. The class invariant
  `Valid()` says every entry is a valid lowercase address and no entry
  appears twice. The constructor establishes it and every handler keeps it.

`seqs.dfy` (module `Seqs`) models `Array.prototype.filter` and
`Array.prototype.find` once, generically, together with their lemmas
(subsequence, concatenation, partition, no duplicates, first match).
`wrappers.dfy` holds `Option` and `Result`.

Points about the code that the model keeps:
- The code does not check that the transport's response is as long as the
  batch, so there is no malformed-response error.
- Nothing is cached between dispatches: each dispatch that gets past both
  lookups calls the template's loader once. `load` is a fixed function of
  the import specifier.
- The custom subject is chosen when it is truthy, so an empty string falls
  back to the template's subject.
- The service does not reject an empty recipient list; only the page does.
  An empty list posts an empty batch.

## Model

| member | source | states |
|---|---|---|
| Seqs.Filter | src/templates/index.ts:49 | the kept elements all satisfy the predicate, come from the input, and every qualifying input element is kept; never longer than the input |
| Seqs.Find | src/templates/index.ts:44 | a found element is in the input and satisfies the predicate; nothing is found exactly when no element satisfies it |
| Seqs.FilterIsSubsequence | src/templates/index.ts:49 | the filter's result is a subsequence of its input (relative order kept) |
| Seqs.FilterAppend | src/templates/index.ts:49 | filtering a concatenation is the concatenation of the filtered parts |
| Seqs.FilterKeepsAll | src/pages/home.tsx:57 | when every element qualifies the filter returns its input unchanged |
| Seqs.FilterPartition | src/services/mail.service.ts:68-69 | filtering by a predicate and by its negation yields lengths that sum to the input's length |
| Seqs.FilterDistinct | src/pages/home.tsx:57 | filtering a sequence without repetitions yields one without repetitions |
| Seqs.FindFirst | src/templates/index.ts:44 | find returns the first element satisfying the predicate |
| Templates.FindById | src/templates/index.ts:43-45 | a found template is in the catalog and has the id asked for; none is found exactly when no entry has that id; never fails |
| Templates.FindByIdFirst | src/templates/index.ts:43-45 | the lookup returns the first entry whose id matches |
| Templates.FindByIdOwnId | src/templates/index.ts:43-45 | in a catalog with distinct ids, looking up an entry's id returns that entry |
| Templates.GetTemplateById | src/templates/index.ts:11-45 | a template is found exactly for the ids test-event, promotion-offer and newsletter, and it is the catalog entry with that id |
| Templates.GetTemplatesByCategory | src/templates/index.ts:48-50 | every returned template has the category and is in the catalog; every catalog entry of the category is returned; at most as many as the catalog |
| Templates.GetAllTemplates | src/templates/index.ts:53-55 | the catalog, three entries in declaration order test-event, promotion-offer, newsletter, with distinct ids |
| Templates.CategoryIsSubsequence | src/templates/index.ts:48-50 | the category query is a subsequence of the full catalog |
| Templates.CatalogLookupByOwnId | src/templates/index.ts:11-45 | every catalog entry is returned when looked up by its own id |
| Templates.LoaderKeysMatchCatalog | src/templates/index.ts:11-40 | the loader table's keys are exactly the catalog's ids |
| Templates.ShippedLoaderForEveryTemplate | src/templates/index.ts:36-45 | every id the shipped catalog resolves has a loader |
| Templates.PromotionCategory | src/templates/index.ts:19-25 | the promotion category yields exactly the promotion-offer template |
| Templates.NotificationCategoryEmpty | src/templates/index.ts:7 | the notification category yields no template |
| MailService.RethrownMessage | src/services/mail.service.ts:76-79 | a thrown Error is rethrown with its own message; any other thrown value becomes "Failed to send bulk emails" |
| MailService.EffectiveSubject | src/services/mail.service.ts:49 | a non-empty custom subject is used; an absent or empty one falls back to the template's subject |
| MailService.BuildRequests | src/services/mail.service.ts:52-58 | one request per recipient, in order; request i goes to recipient i; all share subject, markup, text and sender ventas@caribbeanxam.com; no cc, bcc or reply-to |
| MailService.TotalSent | src/services/mail.service.ts:68 | the count of successful results is at most their number, and zero exactly when no result succeeded |
| MailService.TotalFailed | src/services/mail.service.ts:69 | the count of failed results is at most their number, and zero exactly when every result succeeded |
| MailService.TotalsPartitionResults | src/services/mail.service.ts:68-69 | sent plus failed equals the number of results |
| MailService.Summarize | src/services/mail.service.ts:65-75 | the summary holds the transport's results unchanged, counts successes and failures, and the counts add up to the number of results |
| MailService.MailEnvironment.constructor | src/services/mail.service.ts:5-7 | a transport and loader world with no calls made yet |
| MailService.MailEnvironment.ImportRaw | src/templates/index.ts:37-39 | a loader call is recorded once and returns what the import settles to |
| MailService.MailEnvironment.PostBulk | src/services/mail.service.ts:61-63 | a POST is recorded once and returns what the service answers |
| MailService.SendEmailBulk | src/services/mail.service.ts:34-80 | the external calls made and the value returned or error thrown are those of BulkDispatch |
| MailService.UnknownTemplateFailsFast | src/services/mail.service.ts:37-40 | an unknown template id fails with "Template with ID '<id>' not found" and makes no loader call and no POST |
| MailService.MissingLoaderFailsFast | src/services/mail.service.ts:43-46 | a known template without a loader fails with "Template content for '<id>' not found" and makes no loader call and no POST |
| MailService.ShippedNeverLacksLoader | src/services/mail.service.ts:43-48 | with the shipped registry, a found template always goes on to call its loader |
| MailService.LoaderCalledOnce | src/services/mail.service.ts:48 | the loader is called exactly once, first, whatever the number of recipients; a rejected load is rethrown with nothing posted |
| MailService.LoadedContentPostsOneBatch | src/services/mail.service.ts:49-79 | after loading, exactly one POST of the built batch is made; a rejected POST is rethrown; otherwise the results are returned unchanged with counts summing to their number |
| MailService.TwoRecipientScenario | src/services/mail.service.ts:61-75 | two recipients with one delivery and one bounce report one sent and one failed |
| MailService.GetTemplateById | src/services/mail.service.ts:83-85 | delegates to the registry's lookup |
| MailService.GetAllTemplates | src/services/mail.service.ts:88-90 | delegates to the registry's listing |
| MailService.GetTemplatesByCategory | src/services/mail.service.ts:93-95 | delegates to the registry's category query |
| Home.SliceIsSegment | src/pages/home.tsx:23 | a slice matches one `[^\s@]+` run exactly when it is non-empty and has neither whitespace nor '@' |
| Home.ValidEmailMatchesPattern | src/pages/home.tsx:22-25 | every address the check accepts matches the regular expression |
| Home.PatternMatchIsValidEmail | src/pages/home.tsx:22-25 | every string the regular expression matches passes the check |
| Home.ValidEmailIffPattern | src/pages/home.tsx:22-25 | the check holds exactly when the string matches `^[^\s@]+@[^\s@]+\.[^\s@]+$` |
| Home.LowerChar | src/pages/home.tsx:42 | ASCII capitals become the matching small letter; every other character is unchanged |
| Home.ToLower | src/pages/home.tsx:42 | lowercasing keeps the length and lowercases position by position |
| Home.ToLowerIsLowercase | src/pages/home.tsx:47 | a lowercased string is already lowercase |
| Home.ToLowerKeepsValid | src/pages/home.tsx:37-47 | lowercasing a valid address keeps it valid |
| Home.Without | src/pages/home.tsx:57 | the removed address is gone, nothing new appears, and every other entry stays |
| Home.WithoutKeepsOrder | src/pages/home.tsx:57 | removal keeps the other entries in order and changes nothing when the address is not listed |
| Home.AppendKeepsWellFormed | src/pages/home.tsx:37-47 | appending the lowercased form of a valid, unlisted address keeps the list valid, lowercase and duplicate-free |
| Home.WithoutKeepsWellFormed | src/pages/home.tsx:56-57 | removing an address keeps the list valid, lowercase and duplicate-free |
| Home.EmailManager.constructor | src/pages/home.tsx:14-19 | the page starts with an empty list, empty input, no notices, not loading, template test-event, and the invariant holds |
| Home.EmailManager.SetCurrentEmail | src/pages/home.tsx:142 | typing replaces the input box's contents and keeps the invariant |
| Home.EmailManager.SelectTemplate | src/pages/home.tsx:122 | choosing a template replaces the selection and keeps the invariant |
| Home.EmailManager.AddEmail | src/pages/home.tsx:28-53 | blank input, an invalid address or a listed lowercased address each set their own error and leave the list and input alone; otherwise the lowercased input is appended, the input cleared and success set; the invariant is kept |
| Home.EmailManager.HandleKeyPress | src/pages/home.tsx:101-105 | Enter has exactly AddEmail's four outcomes (blank, invalid and duplicate input each set their error and leave list and input alone; otherwise the lowercased input is appended, the input cleared and success set); any other key changes nothing; the invariant is kept |
| Home.EmailManager.RemoveEmail | src/pages/home.tsx:56-60 | the list loses every occurrence of the address, others kept in order; both notices are cleared; the invariant is kept |
| Home.EmailManager.SendEmailToAll | src/pages/home.tsx:63-98 | an empty list sets an error and makes no call; otherwise the dispatch's calls are made, a result with sends sets success, one with none sets an error, a thrown error sets an error with its message; loading ends cleared; the list is unchanged |

## Left out

- The HTTP client, its base URL from the configuration, and the network are external. `MailEnvironment.respond` stands for the mail service's answer.
- MailEnvironment: the transport is a fixed function of the batch, and the loader a fixed function of the specifier. So two identical dispatches through one environment get the same answers, which a real service need not give. No proved property depends on this.
- The dynamic imports of the raw markup files are external. `MailEnvironment.load` stands for what each import settles to.
- The transport's response body is taken to be a list of results. The code does not check its shape or its length, and neither does the model.
- Asynchronous suspension and interleaving are not modelled. Each call runs to completion in order, so the loading flag is only seen cleared again.
- `console.error` logging is not modelled.
- Message wording is not modelled. Notices are `ErrorNotice` and `SuccessNotice` values, not the Spanish texts. The service's own error messages are kept exactly.
- The timer that clears the success notice three seconds after an add is not modelled.
- The rendering, the template selector's preview modal and keyboard listener, and routing are not part of this model.
- Home.ToLower: lowercases ASCII letters only; JavaScript's `toLowerCase` also lowercases other Unicode letters.
- The loader table is read as a map from template id to import specifier. A property inherited from the object prototype, such as `constructor`, is never reached, because the id must first be found in the catalog.
- The registry is a parameter of `BulkDispatch` and `SendEmailBulk`, whereas the code reads fixed module-level constants. The page passes the shipped registry. This makes the missing-loader branch reachable for other registries.
- MailService.TotalSent and MailService.TotalFailed: they do not relate the counts to the number of recipients, because the code does not check that the response is as long as the batch.
