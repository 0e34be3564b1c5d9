/**
 * The members tab of the settings page (components/settings/members-tab.tsx): the
 * avatar initials and role badge of each member, which members may be removed, and
 * the owner-only handlers that invite, revoke an invitation and remove a member.
 */
module MembersTab {
  import opened Wrappers
  import opened Text

  // ---------------------------------------------------------------------------
  // Initials

  /** `s.substring(0, 2)` */
  function FirstTwo(s: string): (r: string)
    ensures |r| <= 2 && r <= s
    ensures |s| >= 2 ==> |r| == 2
  {
    if |s| < 2 then s else s[..2]
  }

  /** The text a template literal gives for `part[0]`: the first character, or
      "undefined" when the part is empty. */
  function FirstCharText(part: string): (r: string)
    ensures part != "" ==> r == [part[0]]
    ensures part == "" ==> r == "undefined"
  {
    if part == "" then "undefined" else [part[0]]
  }

  /** getInitials as written: a name of two or more space-separated parts gives the
      first characters of the first two parts, even when one of them is empty. */
  function GetInitialsAsWritten(name: Option<string>, email: string): string {
    if Present(name) then
      var parts := Split(name.value, ' ');
      if |parts| >= 2 then Upper(FirstCharText(parts[0]) + FirstCharText(parts[1]))
      else Upper(FirstTwo(name.value))
    else Upper(FirstTwo(email))
  }

  /** A trailing space splits a one-word name such as "Ann " into the word and "",
      and the empty part's missing first character is spelled out: the avatar shows
      ten letters, "AUNDEFINED" for "Ann ", instead of at most two. */
  lemma TrailingSpaceSpellsUndefined(word: string, email: string)
    requires word != "" && ' ' !in word
    ensures var r := GetInitialsAsWritten(Some(word + " "), email);
      r == Upper([word[0]] + "undefined") && |r| == 10
  {
    assert word + " " == word + [' '] + "";
    SplitAtFirstSep(word, ' ', "");
    assert Split(word + " ", ' ') == [word, ""];
  }

  /** The initials as intended: the first characters of the first two words of the
      name, the first two characters of its only word, or, for a name without words,
      the first two characters of the email; all uppercased. */
  function GetInitials(name: Option<string>, email: string): (r: string)
    ensures |r| <= 2
  {
    var words := if name.Some? then NonEmpty(Split(name.value, ' ')) else [];
    if |words| >= 2 then Upper([words[0][0], words[1][0]])
    else if |words| == 1 then Upper(FirstTwo(words[0]))
    else Upper(FirstTwo(email))
  }

  /** A name whose first two space-separated parts are non-empty gives their first
      characters, uppercased. */
  lemma InitialsOfTwoParts(name: string, email: string)
    requires var parts := Split(name, ' ');
      |parts| >= 2 && parts[0] != "" && parts[1] != ""
    ensures var parts := Split(name, ' ');
      GetInitials(Some(name), email) == [UpperChar(parts[0][0]), UpperChar(parts[1][0])]
  {
    var parts := Split(name, ' ');
    assert parts == [parts[0]] + parts[1..];
    assert parts[1..] == [parts[1]] + parts[2..];
    assert NonEmpty(parts[1..]) == [parts[1]] + NonEmpty(parts[2..]);
    assert NonEmpty(parts) == [parts[0], parts[1]] + NonEmpty(parts[2..]);
  }

  /** A non-empty name without a space gives its first two characters (or its only
      one), uppercased. */
  lemma InitialsOfOnePart(name: string, email: string)
    requires name != "" && ' ' !in name
    ensures var r := GetInitials(Some(name), email);
      && |r| == (if |name| < 2 then |name| else 2)
      && forall k :: 0 <= k < |r| ==> r[k] == UpperChar(name[k])
  {
    SplitWithoutSep(name, ' ');
    assert NonEmpty([name]) == [name];
  }

  /** A missing or empty name gives the first two characters of the email,
      uppercased. */
  lemma InitialsOfEmail(name: Option<string>, email: string)
    requires !Present(name)
    ensures var r := GetInitials(name, email);
      && |r| == (if |email| < 2 then |email| else 2)
      && forall k :: 0 <= k < |r| ==> r[k] == UpperChar(email[k])
  {
    if name.Some? {
      assert Split(name.value, ' ') == [""];
      assert NonEmpty([""]) == [];
    }
  }

  /** The correction changes nothing where the code as written is right: when the
      name has at most one part, or its first two parts are non-empty. */
  lemma InitialsAgreeOnWellFormedNames(name: Option<string>, email: string)
    requires Present(name) ==>
      var parts := Split(name.value, ' ');
      |parts| >= 2 ==> parts[0] != "" && parts[1] != ""
    ensures GetInitials(name, email) == GetInitialsAsWritten(name, email)
  {
    if Present(name) {
      var parts := Split(name.value, ' ');
      if |parts| >= 2 {
        InitialsOfTwoParts(name.value, email);
      } else {
        InitialsOfOnePart(name.value, email);
      }
    } else {
      InitialsOfEmail(name, email);
    }
  }

  // ---------------------------------------------------------------------------
  // Members

  /** A member of the company, as the tab lists it. */
  datatype Member = Member(id: string, fullName: Option<string>, email: string, role: string)

  /** The badge variant for a role. */
  datatype BadgeVariant = Default | Secondary

  /** getRoleVariant */
  function GetRoleVariant(role: string): (v: BadgeVariant)
    ensures v == Default <==> role == "owner"
    ensures v == Secondary <==> role != "owner"
  {
    if role == "owner" then Default else Secondary
  }

  /** Whether the Remove button is shown next to a member. */
  predicate CanRemove(isOwner: bool, currentUserId: string, member: Member) {
    isOwner && member.id != currentUserId && member.role != "owner"
  }

  /** For each listed member, whether Remove is offered. */
  function RemoveOffered(members: seq<Member>, currentUserId: string, userRole: string): (r: seq<bool>)
    ensures |r| == |members|
    ensures forall i :: 0 <= i < |members| ==>
      (r[i] <==> userRole == "owner" && members[i].id != currentUserId && members[i].role != "owner")
  {
    if members == [] then []
    else
      var first := CanRemove(userRole == "owner", currentUserId, members[0]);
      [first] + RemoveOffered(members[1..], currentUserId, userRole)
  }

  /** Nobody is offered to remove themselves or an owner, and a viewer who is not an
      owner is offered to remove no one. */
  lemma RemoveNeverOfferedForSelfOrOwner(members: seq<Member>, currentUserId: string, userRole: string, i: nat)
    requires i < |members|
    requires members[i].id == currentUserId || members[i].role == "owner" || userRole != "owner"
    ensures !RemoveOffered(members, currentUserId, userRole)[i]
  {
  }

  // ---------------------------------------------------------------------------
  // Handlers

  /** A server action the tab calls. */
  datatype Action =
    | CreateInvitation(email: string)
    | RevokeInvitation(invitationId: string)
    | RemoveMember(memberId: string)

  /** What a server action answered. */
  datatype ActionResult = ActionOk | ActionFailed(error: Option<string>)

  /** A toast shown after an action. */
  datatype Toast = ErrorToast(title: string, description: string) | SuccessToast(title: string)

  /** `result.error || 'Please try again.'` */
  function ErrorDescription(error: Option<string>): (d: string)
    ensures d != ""
    ensures Present(error) ==> d == error.value
  {
    if Present(error) then error.value else "Please try again."
  }

  /** The toast for an action's result. */
  function ResultToast(result: ActionResult, failed: string, succeeded: string): (t: Toast)
    ensures t.ErrorToast? <==> result.ActionFailed?
    ensures t.ErrorToast? ==> t == ErrorToast(failed, ErrorDescription(result.error))
    ensures t.SuccessToast? ==> t == SuccessToast(succeeded)
  {
    match result
    case ActionOk => SuccessToast(succeeded)
    case ActionFailed(error) => ErrorToast(failed, ErrorDescription(error))
  }

  /** The tab's state. Each handler runs to completion with the action's result
      given; the in-progress flags are back to false when it returns. */
  class MembersTabState {
    const isOwner: bool
    const currentUserId: string
    var inviteEmail: string
    var isInviting: bool
    var revokingId: Option<string>
    var memberToRemove: Option<Member>
    var isRemovingMember: bool

    /** The member awaiting confirmation is one the viewer may remove. */
    predicate Valid()
      reads this
    {
      memberToRemove.Some? ==> CanRemove(isOwner, currentUserId, memberToRemove.value)
    }

    constructor(userRole: string, currentUserId: string)
      ensures isOwner == (userRole == "owner") && this.currentUserId == currentUserId
      ensures inviteEmail == "" && !isInviting && revokingId.None?
      ensures memberToRemove.None? && !isRemovingMember
      ensures Valid()
    {
      isOwner := userRole == "owner";
      this.currentUserId := currentUserId;
      inviteEmail := "";
      isInviting := false;
      revokingId := None;
      memberToRemove := None;
      isRemovingMember := false;
    }

    /** Typing into the invite field. */
    method SetInviteEmail(email: string)
      modifies this
      requires Valid()
      ensures Valid()
      ensures inviteEmail == email
      ensures isInviting == old(isInviting) && revokingId == old(revokingId)
      ensures memberToRemove == old(memberToRemove) && isRemovingMember == old(isRemovingMember)
    {
      inviteEmail := email;
    }

    /** handleInvite: owners send the typed address; the field is cleared only when
        the invitation was created. */
    method HandleInvite(result: ActionResult) returns (sent: Option<Action>, toast: Option<Toast>)
      modifies this
      requires Valid()
      ensures Valid()
      ensures !isOwner ==> sent.None? && toast.None? && unchanged(this)
      ensures isOwner ==>
        && sent == Some(CreateInvitation(old(inviteEmail)))
        && toast == Some(ResultToast(result, "Failed to send invitation", "Invitation sent"))
        && inviteEmail == (if result.ActionOk? then "" else old(inviteEmail))
        && !isInviting
      ensures revokingId == old(revokingId) && memberToRemove == old(memberToRemove)
      ensures isRemovingMember == old(isRemovingMember)
    {
      if !isOwner {
        return None, None;
      }
      isInviting := true;
      sent := Some(CreateInvitation(inviteEmail));
      isInviting := false;
      toast := Some(ResultToast(result, "Failed to send invitation", "Invitation sent"));
      if result.ActionOk? {
        inviteEmail := "";
      }
    }

    /** handleRevoke: owners revoke the invitation; the row is marked as being revoked
        while the call runs. */
    method HandleRevoke(invitationId: string, result: ActionResult) returns (sent: Option<Action>, toast: Option<Toast>)
      modifies this
      requires Valid()
      ensures Valid()
      ensures !isOwner ==> sent.None? && toast.None? && unchanged(this)
      ensures isOwner ==>
        && sent == Some(RevokeInvitation(invitationId))
        && toast == Some(ResultToast(result, "Failed to revoke invitation", "Invitation revoked"))
        && revokingId.None?
      ensures inviteEmail == old(inviteEmail) && isInviting == old(isInviting)
      ensures memberToRemove == old(memberToRemove) && isRemovingMember == old(isRemovingMember)
    {
      if !isOwner {
        return None, None;
      }
      revokingId := Some(invitationId);
      sent := Some(RevokeInvitation(invitationId));
      revokingId := None;
      toast := Some(ResultToast(result, "Failed to revoke invitation", "Invitation revoked"));
    }

    /** Clicking Remove next to a member, which is only shown when the viewer may
        remove that member. */
    method SelectForRemoval(member: Member)
      modifies this
      requires Valid()
      requires CanRemove(isOwner, currentUserId, member)
      ensures Valid()
      ensures memberToRemove == Some(member)
      ensures inviteEmail == old(inviteEmail) && isInviting == old(isInviting)
      ensures revokingId == old(revokingId) && isRemovingMember == old(isRemovingMember)
    {
      memberToRemove := Some(member);
    }

    /** Cancelling or closing the confirmation dialog. */
    method CancelRemoval()
      modifies this
      requires Valid()
      ensures Valid()
      ensures memberToRemove.None?
      ensures inviteEmail == old(inviteEmail) && isInviting == old(isInviting)
      ensures revokingId == old(revokingId) && isRemovingMember == old(isRemovingMember)
    {
      memberToRemove := None;
    }

    /** handleConfirmRemove: an owner with a member awaiting confirmation removes
        that member, never themselves and never an owner; the dialog closes only on
        success. */
    method HandleConfirmRemove(result: ActionResult) returns (sent: Option<Action>, toast: Option<Toast>)
      modifies this
      requires Valid()
      ensures Valid()
      ensures old(memberToRemove).None? || !isOwner ==> sent.None? && toast.None? && unchanged(this)
      ensures old(memberToRemove).Some? && isOwner ==>
        && sent == Some(RemoveMember(old(memberToRemove).value.id))
        && toast == Some(ResultToast(result, "Failed to remove member", "Member removed"))
        && memberToRemove == (if result.ActionOk? then None else old(memberToRemove))
        && !isRemovingMember
      ensures sent.Some? ==> sent.value.memberId != currentUserId
      ensures inviteEmail == old(inviteEmail) && isInviting == old(isInviting)
      ensures revokingId == old(revokingId)
    {
      if memberToRemove.None? || !isOwner {
        return None, None;
      }
      isRemovingMember := true;
      sent := Some(RemoveMember(memberToRemove.value.id));
      isRemovingMember := false;
      toast := Some(ResultToast(result, "Failed to remove member", "Member removed"));
      if result.ActionOk? {
        memberToRemove := None;
      }
    }
  }
}
