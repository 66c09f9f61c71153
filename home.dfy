/** The recipient-list page: the address check, and the page state (the list,
    the input box, the error and success notices, the loading flag and the
    selected template) with the handlers that change it. */
module Home {
  import opened Wrappers
  import Seqs
  import Templates
  import MailService

  /** The characters JavaScript's `\s` class matches, which are also those
      `String.prototype.trim` removes. */
  predicate IsWhitespace(c: char)
  {
    var n := c as int;
    || n == 0x09 || n == 0x0A || n == 0x0B || n == 0x0C || n == 0x0D || n == 0x20
    || n == 0xA0 || n == 0x1680 || (0x2000 <= n <= 0x200A)
    || n == 0x2028 || n == 0x2029 || n == 0x202F || n == 0x205F || n == 0x3000 || n == 0xFEFF
  }

  /** `!s.trim()`: nothing is left once surrounding whitespace is removed. */
  predicate IsBlank(s: string)
  {
    forall k | 0 <= k < |s| :: IsWhitespace(s[k])
  }

  /** The address check: no whitespace, a single '@' that is not the first
      character, and after it a '.' with at least one character on either side. */
  predicate IsValidEmail(email: string)
  {
    && (forall k | 0 <= k < |email| :: !IsWhitespace(email[k]))
    && exists at | 0 < at < |email| ::
         && email[at] == '@'
         && (forall k | 0 <= k < |email| && k != at :: email[k] != '@')
         && (exists dot | at + 1 < dot < |email| - 1 :: email[dot] == '.')
  }

  /** The pattern's `[^\s@]+`. */
  predicate IsSegment(t: string)
  {
    |t| > 0 && forall k | 0 <= k < |t| :: !IsWhitespace(t[k]) && t[k] != '@'
  }

  /** The language of `/^[^\s@]+@[^\s@]+\.[^\s@]+$/`. */
  ghost predicate MatchesEmailPattern(s: string)
  {
    exists i, j | 0 <= i < j < |s| ::
      s[i] == '@' && s[j] == '.' && IsSegment(s[..i]) && IsSegment(s[i + 1..j]) && IsSegment(s[j + 1..])
  }

  /** A slice is a segment exactly when it is non-empty and each of its
      characters is neither whitespace nor '@'. */
  lemma SliceIsSegment(s: string, lo: int, hi: int)
    requires 0 <= lo <= hi <= |s|
    ensures IsSegment(s[lo..hi]) <==> lo < hi && forall k | lo <= k < hi :: !IsWhitespace(s[k]) && s[k] != '@'
  {
    var t := s[lo..hi];
    assert forall k | lo <= k < hi :: s[k] == t[k - lo];
  }

  /** Every address the check accepts matches the pattern. */
  lemma ValidEmailMatchesPattern(s: string)
    requires IsValidEmail(s)
    ensures MatchesEmailPattern(s)
  {
    var at :| 0 < at < |s| && s[at] == '@' && (forall k | 0 <= k < |s| && k != at :: s[k] != '@')
              && (exists dot | at + 1 < dot < |s| - 1 :: s[dot] == '.');
    var dot :| at + 1 < dot < |s| - 1 && s[dot] == '.';
    SliceIsSegment(s, 0, at);
    SliceIsSegment(s, at + 1, dot);
    SliceIsSegment(s, dot + 1, |s|);
    assert s[..at] == s[0..at];
    assert s[dot + 1..] == s[dot + 1..|s|];
  }

  /** Every string the pattern matches passes the check. */
  lemma PatternMatchIsValidEmail(s: string)
    requires MatchesEmailPattern(s)
    ensures IsValidEmail(s)
  {
    var i, j :| 0 <= i < j < |s| && s[i] == '@' && s[j] == '.'
                && IsSegment(s[..i]) && IsSegment(s[i + 1..j]) && IsSegment(s[j + 1..]);
    assert s[..i] == s[0..i];
    assert s[j + 1..] == s[j + 1..|s|];
    SliceIsSegment(s, 0, i);
    SliceIsSegment(s, i + 1, j);
    SliceIsSegment(s, j + 1, |s|);
    forall k | 0 <= k < |s| && k != i ensures !IsWhitespace(s[k]) && s[k] != '@' {
      // k lies in the local part, is the dot, or lies on either side of it
      if k < i {
        assert 0 <= k < i;
      } else if k < j {
        assert i + 1 <= k < j;
      } else if k > j {
        assert j + 1 <= k < |s|;
      }
    }
    assert !IsWhitespace(s[i]);
    assert 0 < i && i + 1 < j < |s| - 1;
  }

  /** The address check accepts exactly the strings the pattern matches. */
  lemma ValidEmailIffPattern(s: string)
    ensures IsValidEmail(s) <==> MatchesEmailPattern(s)
  {
    if IsValidEmail(s) {
      ValidEmailMatchesPattern(s);
    }
    if MatchesEmailPattern(s) {
      PatternMatchIsValidEmail(s);
    }
  }

  /** ASCII lowercasing of one character. */
  function LowerChar(c: char): (d: char)
    ensures 'A' <= c <= 'Z' ==> 'a' <= d <= 'z' && d as int - c as int == 32
    ensures !('A' <= c <= 'Z') ==> d == c
  {
    if 'A' <= c <= 'Z' then (c as int + 32) as char else c
  }

  /** `toLowerCase`, for the ASCII letters. */
  function ToLower(s: string): (r: string)
    ensures |r| == |s|
    ensures forall k | 0 <= k < |s| :: r[k] == LowerChar(s[k])
  {
    if s == [] then [] else [LowerChar(s[0])] + ToLower(s[1..])
  }

  predicate IsLowercase(s: string)
  {
    ToLower(s) == s
  }

  /** Lowercasing twice changes nothing more. */
  lemma ToLowerIsLowercase(s: string)
    ensures IsLowercase(ToLower(s))
  {
    var t := ToLower(s);
    assert ToLower(t) == t by {
      forall k | 0 <= k < |t| ensures ToLower(t)[k] == t[k] {
        assert t[k] == LowerChar(s[k]);
      }
    }
  }

  /** Lowercasing keeps an address valid. */
  lemma ToLowerKeepsValid(s: string)
    requires IsValidEmail(s)
    ensures IsValidEmail(ToLower(s))
  {
    var t := ToLower(s);
    var at :| 0 < at < |s| && s[at] == '@' && (forall k | 0 <= k < |s| && k != at :: s[k] != '@')
              && (exists dot | at + 1 < dot < |s| - 1 :: s[dot] == '.');
    var dot :| at + 1 < dot < |s| - 1 && s[dot] == '.';
    forall k | 0 <= k < |t| ensures !IsWhitespace(t[k]) && (k != at ==> t[k] != '@') {
      assert t[k] == LowerChar(s[k]);
    }
    assert t[at] == '@' && t[dot] == '.';
  }

  /** The list invariant: every entry is a valid, lowercase address, and no
      entry occurs twice. */
  ghost predicate WellFormedList(emails: seq<string>)
  {
    && Seqs.Distinct(emails)
    && forall k | 0 <= k < |emails| :: IsLowercase(emails[k]) && IsValidEmail(emails[k])
  }

  /** The predicate `email => email !== emailToRemove`. */
  function IsNot(emailToRemove: string): string -> bool
  {
    (email: string) => email != emailToRemove
  }

  /** `emails.filter(email => email !== emailToRemove)` */
  function Without(emails: seq<string>, emailToRemove: string): (r: seq<string>)
    ensures emailToRemove !in r
    ensures forall k | 0 <= k < |r| :: r[k] in emails
    ensures forall k | 0 <= k < |emails| :: emails[k] != emailToRemove ==> emails[k] in r
  {
    Seqs.Filter(emails, IsNot(emailToRemove))
  }

  /** Removing keeps the other entries, in order, and removes nothing when the
      address is not listed. */
  lemma WithoutKeepsOrder(emails: seq<string>, emailToRemove: string)
    ensures Seqs.IsSubsequence(Without(emails, emailToRemove), emails)
    ensures emailToRemove !in emails ==> Without(emails, emailToRemove) == emails
  {
    Seqs.FilterIsSubsequence(emails, IsNot(emailToRemove));
    if emailToRemove !in emails {
      Seqs.FilterKeepsAll(emails, IsNot(emailToRemove));
    }
  }

  /** Appending the lowercased form of a valid, unlisted address keeps the
      invariant. */
  lemma AppendKeepsWellFormed(emails: seq<string>, input: string)
    requires WellFormedList(emails) && IsValidEmail(input) && ToLower(input) !in emails
    ensures WellFormedList(emails + [ToLower(input)])
  {
    ToLowerIsLowercase(input);
    ToLowerKeepsValid(input);
  }

  /** Removing an address keeps the invariant. */
  lemma WithoutKeepsWellFormed(emails: seq<string>, emailToRemove: string)
    requires WellFormedList(emails)
    ensures WellFormedList(Without(emails, emailToRemove))
  {
    Seqs.FilterDistinct(emails, IsNot(emailToRemove));
  }

  /** The error notice the page shows. */
  datatype ErrorNotice =
    | NoError
    | BlankInput            // nothing typed
    | InvalidAddress        // the address check failed
    | AlreadyListed         // the lowercased address is in the list
    | EmptyList             // sending with no recipients
    | NoneDelivered         // the transport delivered nothing
    | SendFailed(reason: string)  // the dispatch threw, with its message

  /** The success notice the page shows. */
  datatype SuccessNotice =
    | NoSuccess
    | Added
    | Delivered(sent: nat, listed: nat, failed: nat)

  /** The template a new page starts with. */
  const DefaultTemplate: string := "test-event"

  class EmailManager {
    var emails: seq<string>
    var currentEmail: string
    var error: ErrorNotice
    var success: SuccessNotice
    var isLoading: bool
    var selectedTemplate: string

    ghost predicate Valid()
      reads this
    {
      WellFormedList(emails)
    }

    constructor ()
      ensures Valid()
      ensures emails == [] && currentEmail == "" && error == NoError && success == NoSuccess
      ensures !isLoading && selectedTemplate == DefaultTemplate
    {
      emails := [];
      currentEmail := "";
      error := NoError;
      success := NoSuccess;
      isLoading := false;
      selectedTemplate := DefaultTemplate;
    }

    /** The input box's change handler. */
    method SetCurrentEmail(value: string)
      requires Valid()
      modifies this`currentEmail
      ensures Valid()
      ensures currentEmail == value
    {
      currentEmail := value;
    }

    /** The template selector's selection handler. */
    method SelectTemplate(id: string)
      requires Valid()
      modifies this`selectedTemplate
      ensures Valid()
      ensures selectedTemplate == id
    {
      selectedTemplate := id;
    }

    /** Validate the input, lowercase it, reject a duplicate, append it. */
    method AddEmail()
      requires Valid()
      modifies this`emails, this`currentEmail, this`error, this`success
      ensures Valid()
      ensures var input := old(currentEmail);
        && (IsBlank(input) ==>
              error == BlankInput && success == NoSuccess && emails == old(emails) && currentEmail == input)
        && (!IsBlank(input) && !IsValidEmail(input) ==>
              error == InvalidAddress && success == NoSuccess && emails == old(emails) && currentEmail == input)
        && (!IsBlank(input) && IsValidEmail(input) && ToLower(input) in old(emails) ==>
              error == AlreadyListed && success == NoSuccess && emails == old(emails) && currentEmail == input)
        && (!IsBlank(input) && IsValidEmail(input) && ToLower(input) !in old(emails) ==>
              error == NoError && success == Added && emails == old(emails) + [ToLower(input)] && currentEmail == "")
    {
      error := NoError;
      success := NoSuccess;
      if IsBlank(currentEmail) {
        error := BlankInput;
        return;
      }
      if !IsValidEmail(currentEmail) {
        error := InvalidAddress;
        return;
      }
      if ToLower(currentEmail) in emails {
        error := AlreadyListed;
        return;
      }
      AppendKeepsWellFormed(emails, currentEmail);
      emails := emails + [ToLower(currentEmail)];
      currentEmail := "";
      success := Added;
    }

    /** Enter in the input box adds the address, exactly as `AddEmail` does;
        any other key changes nothing. */
    method HandleKeyPress(key: string)
      requires Valid()
      modifies this`emails, this`currentEmail, this`error, this`success
      ensures Valid()
      ensures key != "Enter" ==>
        emails == old(emails) && currentEmail == old(currentEmail) && error == old(error) && success == old(success)
      ensures key == "Enter" ==>
        var input := old(currentEmail);
        && (IsBlank(input) ==>
              error == BlankInput && success == NoSuccess && emails == old(emails) && currentEmail == input)
        && (!IsBlank(input) && !IsValidEmail(input) ==>
              error == InvalidAddress && success == NoSuccess && emails == old(emails) && currentEmail == input)
        && (!IsBlank(input) && IsValidEmail(input) && ToLower(input) in old(emails) ==>
              error == AlreadyListed && success == NoSuccess && emails == old(emails) && currentEmail == input)
        && (!IsBlank(input) && IsValidEmail(input) && ToLower(input) !in old(emails) ==>
              error == NoError && success == Added && emails == old(emails) + [ToLower(input)] && currentEmail == "")
    {
      if key == "Enter" {
        AddEmail();
      }
    }

    /** Drop every occurrence of an address and clear both notices. */
    method RemoveEmail(emailToRemove: string)
      requires Valid()
      modifies this`emails, this`error, this`success
      ensures Valid()
      ensures emails == Without(old(emails), emailToRemove)
      ensures error == NoError && success == NoSuccess
    {
      WithoutKeepsWellFormed(emails, emailToRemove);
      emails := Without(emails, emailToRemove);
      error := NoError;
      success := NoSuccess;
    }

    /** Refuse an empty list; otherwise dispatch the selected template to every
        listed address through the shipped registry and report the outcome. */
    method SendEmailToAll(env: MailService.MailEnvironment)
      requires Valid()
      modifies this`error, this`success, this`isLoading, env`calls
      ensures Valid() && emails == old(emails)
      ensures old(emails) == [] ==>
        error == EmptyList && success == old(success) && isLoading == old(isLoading) && env.calls == old(env.calls)
      ensures old(emails) != [] ==>
        var d := MailService.BulkDispatch(Templates.Shipped, old(emails), old(selectedTemplate), None, None, env.load, env.respond);
        && !isLoading
        && env.calls == old(env.calls) + d.calls
        && (d.result.Success? && d.result.value.totalSent > 0 ==>
              success == Delivered(d.result.value.totalSent, |old(emails)|, d.result.value.totalFailed) && error == NoError)
        && (d.result.Success? && d.result.value.totalSent == 0 ==> error == NoneDelivered && success == NoSuccess)
        && (d.result.Failure? ==> error == SendFailed(d.result.error) && success == NoSuccess)
    {
      if |emails| == 0 {
        error := EmptyList;
        return;
      }
      isLoading := true;
      error := NoError;
      success := NoSuccess;
      var result := MailService.SendEmailBulk(env, Templates.Shipped, emails, selectedTemplate, None, None);
      match result {
        case Success(response) =>
          if response.totalSent > 0 {
            success := Delivered(response.totalSent, |emails|, response.totalFailed);
          } else {
            error := NoneDelivered;
          }
        case Failure(message) =>
          error := SendFailed(message);
      }
      isLoading := false;
    }
  }
}
