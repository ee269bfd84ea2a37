/** The submit checks of src/components/InviteMemberModal.jsx: an email that trims to
    nothing, then the pattern `^[^\s@]+@[^\s@]+\.[^\s@]+$` tested on the untrimmed text,
    and the role chosen from two options. */
module InviteForm {
  import opened Wrappers
  import opened Text
  import opened Models
  import Channels

  /** Every character is neither whitespace nor '@': the class `[^\s@]`. */
  predicate Plain(s: string) {
    forall k :: 0 <= k < |s| ==> !IsSpace(s[k]) && s[k] != '@'
  }

  /** What the pattern accepts, read as the regular expression reads it: a non-empty plain
      local part, '@', a non-empty plain part, '.', a non-empty plain part. */
  ghost predicate MatchesPattern(s: string) {
    exists i, j :: 0 < i && i + 1 < j < |s| - 1 && s[i] == '@' && s[j] == '.'
      && Plain(s[..i]) && Plain(s[i + 1..j]) && Plain(s[j + 1..])
  }

  /** The first '@' of the text, if any. */
  function FindAt(s: string): (r: Option<nat>)
    ensures r.Some? ==> r.value < |s| && s[r.value] == '@'
    ensures r.Some? ==> forall k :: 0 <= k < r.value ==> s[k] != '@'
    ensures r.None? ==> forall k :: 0 <= k < |s| ==> s[k] != '@'
    decreases |s|
  {
    if |s| == 0 then None
    else if s[0] == '@' then Some(0)
    else match FindAt(s[1..])
      case None => None
      case Some(k) => Some(k + 1)
  }

  /** A domain of the pattern: plain, with a '.' that is neither its first nor its last
      character. */
  predicate DomainOk(d: string) {
    Plain(d) && exists j :: 0 < j < |d| - 1 && d[j] == '.'
  }

  /** The pattern test, decided: a non-empty plain text before the first '@' and a valid
      domain after it (a second '@' would make the domain not plain). */
  predicate ValidEmail(s: string) {
    match FindAt(s)
    case None => false
    case Some(i) => i > 0 && Plain(s[..i]) && DomainOk(s[i + 1..])
  }

  lemma PlainSlice(d: string, a: nat, b: nat)
    requires Plain(d) && a <= b <= |d|
    ensures Plain(d[a..b])
  {
    forall k | 0 <= k < b - a ensures !IsSpace(d[a..b][k]) && d[a..b][k] != '@' {
      assert d[a..b][k] == d[a + k];
    }
  }

  lemma PlainAround(x: string, y: string, c: char)
    requires Plain(x) && Plain(y) && !IsSpace(c) && c != '@'
    ensures Plain(x + [c] + y)
  {
    var z := x + [c] + y;
    forall k | 0 <= k < |z| ensures !IsSpace(z[k]) && z[k] != '@' {
      if k < |x| {
        assert z[k] == x[k];
      } else if k > |x| {
        assert z[k] == y[k - |x| - 1];
      }
    }
  }

  /** The '@' of a decomposition is the first one. */
  lemma DecompositionAt(s: string, i: nat)
    requires 0 < i < |s| && s[i] == '@' && Plain(s[..i])
    ensures FindAt(s) == Some(i)
  {
    forall k | 0 <= k < i ensures s[k] != '@' {
      assert s[k] == s[..i][k];
    }
  }

  /** The text after the '@' of a decomposition is a valid domain. */
  lemma DecompositionDomain(s: string, i: nat, j: nat)
    requires 0 < i && i + 1 < j < |s| - 1 && s[j] == '.'
    requires Plain(s[i + 1..j]) && Plain(s[j + 1..])
    ensures DomainOk(s[i + 1..])
  {
    var d := s[i + 1..];
    assert d == s[i + 1..j] + ['.'] + s[j + 1..];
    PlainAround(s[i + 1..j], s[j + 1..], '.');
    assert d[j - i - 1] == '.';
  }

  lemma PatternIsValid(s: string)
    requires MatchesPattern(s)
    ensures ValidEmail(s)
  {
    var i, j :| 0 < i && i + 1 < j < |s| - 1 && s[i] == '@' && s[j] == '.'
      && Plain(s[..i]) && Plain(s[i + 1..j]) && Plain(s[j + 1..]);
    DecompositionAt(s, i);
    DecompositionDomain(s, i, j);
  }

  lemma ValidIsPattern(s: string)
    requires ValidEmail(s)
    ensures MatchesPattern(s)
  {
    var i := FindAt(s).value;
    var d := s[i + 1..];
    var j' :| 0 < j' < |d| - 1 && d[j'] == '.';
    var j := i + 1 + j';
    assert s[j] == '.';
    PlainSlice(d, 0, j');
    PlainSlice(d, j' + 1, |d|);
    assert s[i + 1..j] == d[0..j'];
    assert s[j + 1..] == d[j' + 1..|d|];
  }

  /** The decision agrees with the regular expression on every text. */
  lemma ValidEmailIffPattern(s: string)
    ensures ValidEmail(s) <==> MatchesPattern(s)
  {
    if MatchesPattern(s) {
      PatternIsValid(s);
    }
    if ValidEmail(s) {
      ValidIsPattern(s);
    }
  }

  /** The pattern in the words of its three conditions: no whitespace and exactly one '@',
      a non-empty local part, and a '.' inside the domain that is neither first nor last. */
  lemma ValidEmailShape(s: string)
    requires ValidEmail(s)
    ensures forall k :: 0 <= k < |s| ==> !IsSpace(s[k])
    ensures var i := FindAt(s).value;
      && i > 0
      && (forall k :: 0 <= k < |s| && k != i ==> s[k] != '@')
      && exists j :: i + 1 < j < |s| - 1 && s[j] == '.'
  {
    var i := FindAt(s).value;
    var d := s[i + 1..];
    forall k | 0 <= k < |s| ensures !IsSpace(s[k]) && (k != i ==> s[k] != '@') {
      if k < i {
        assert s[k] == s[..i][k];
      } else if k > i {
        assert s[k] == d[k - i - 1];
      }
    }
    var j' :| 0 < j' < |d| - 1 && d[j'] == '.';
    assert s[i + 1 + j'] == '.';
  }

  /** The form: the email as typed and one of the two offered roles. */
  datatype Form = Form(email: string, role: InviteRole)

  /** The form as it opens. */
  const InitialForm: Form := Form("", InviteVolunteer)

  datatype Submit = EmailRequired | InvalidEmail | Send(request: Channels.InviteRequest)

  /** handleSubmit: a blank email is refused, then an email failing the pattern; otherwise
      the form is posted as it stands, the email untrimmed. */
  function HandleSubmit(f: Form): (r: Submit)
    ensures r == EmailRequired <==> IsBlank(f.email)
    ensures r == InvalidEmail <==> !IsBlank(f.email) && !MatchesPattern(f.email)
    ensures r.Send? ==> r.request == Channels.InviteRequest(Some(f.email), Some(InviteRoleName(f.role)))
  {
    TrimEmptyIffBlank(f.email);
    ValidEmailIffPattern(f.email);
    if Trim(f.email) == "" then EmailRequired
    else if !ValidEmail(f.email) then InvalidEmail
    else Send(Channels.InviteRequest(Some(f.email), Some(InviteRoleName(f.role))))
  }

  /** A valid address with a space in front is not blank, and its first '@' comes after a
      local part that starts with the space. */
  lemma LeadingSpaceInvalid(email: string)
    requires ValidEmail(email)
    ensures !IsBlank(" " + email) && !ValidEmail(" " + email)
  {
    var s := " " + email;
    assert !IsSpace(email[0]) && email[0] != '@' by {
      ValidEmailShape(email);
      assert FindAt(email).value > 0;
    }
    assert !IsBlank(s) by { assert s[1] == email[0]; }
    var i := FindAt(email).value;
    assert FindAt(s) == Some(i + 1) by {
      assert s[1..] == email;
      assert s[0] != '@';
    }
    assert s[..i + 1][0] == ' ';
  }

  /** A valid address with a space in front passes the blank check but fails the pattern,
      which is tested on the untrimmed text. */
  lemma LeadingSpaceRejected(email: string, role: InviteRole)
    requires ValidEmail(email)
    ensures HandleSubmit(Form(" " + email, role)) == InvalidEmail
  {
    LeadingSpaceInvalid(email);
    ValidEmailIffPattern(" " + email);
  }

  /** A form that is sent always names a role the invitation enum accepts, and a
      successful invitation carries exactly the role chosen. */
  lemma FormRoleIsKept(st: Store, caller: UserId, cid: ChannelId, f: Form, now: int)
    ensures HandleSubmit(f).Send? ==>
      var r := Channels.Invite(st, caller, cid, HandleSubmit(f).request, now);
      r.res.Ok? ==> r.res.value.role == f.role
  {
    InviteRolesRoundTrip(f.role);
  }
}
