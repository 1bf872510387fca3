/** The invitation menu of src/components/menu/InvitationMenu.jsx: the list of
    users a manager may add to the project (`fetchUsers`) and the handling of
    the server's reply to an assignment (`handleAddClick`). */
module InvitationMenu {
  import opened Wrappers
  import Seqs
  import Notices

  /** A user record as the server sends it; `name` stands for the fields the
      menu does not copy. */
  datatype ServerUser = ServerUser(id: int, email: string, avatar: string, name: string)

  /** A menu option. */
  datatype UserOption = UserOption(labelText: string, id: int, avatar: string)

  /** `item.id !== assigningUser`. */
  function IsOtherUser(me: int): ServerUser -> bool
  {
    (u: ServerUser) => u.id != me
  }

  /** The option shown for one user: the e-mail as label, the id and avatar. */
  function OptionOf(u: ServerUser): UserOption
  {
    UserOption(u.email, u.id, u.avatar)
  }

  function MapOptions(users: seq<ServerUser>): (opts: seq<UserOption>)
    ensures |opts| == |users|
    ensures forall i :: 0 <= i < |users| ==>
      opts[i].labelText == users[i].email && opts[i].id == users[i].id && opts[i].avatar == users[i].avatar
    ensures forall i :: 0 <= i < |users| ==> opts[i] == OptionOf(users[i])
  {
    seq(|users|, i requires 0 <= i < |users| => OptionOf(users[i]))
  }

  /** The options built from the server's user list: every user except the
      signed-in one, in the server's order, as label/id/avatar. */
  function UserOptions(users: seq<ServerUser>, me: int): (opts: seq<UserOption>)
    ensures forall o :: o in opts ==> o.id != me
    ensures forall u :: u in users && u.id != me ==> OptionOf(u) in opts
    ensures forall o :: o in opts ==> exists u :: u in users && o == OptionOf(u)
    ensures |opts| <= |users|
  {
    var others := Seqs.Filter(users, IsOtherUser(me));
    var opts := MapOptions(others);
    assert forall u :: u in users && u.id != me ==> OptionOf(u) in opts by {
      forall u | u in users && u.id != me ensures OptionOf(u) in opts {
        assert IsOtherUser(me)(u);
        var k :| 0 <= k < |others| && others[k] == u;
        assert opts[k] == OptionOf(u);
      }
    }
    assert forall o :: o in opts ==> exists u :: u in users && o == OptionOf(u) by {
      forall o | o in opts ensures exists u :: u in users && o == OptionOf(u) {
        var k :| 0 <= k < |opts| && opts[k] == o;
        assert others[k] in others;
      }
    }
    assert forall o :: o in opts ==> o.id != me by {
      forall o | o in opts ensures o.id != me {
        var k :| 0 <= k < |opts| && opts[k] == o;
        assert others[k] in others;
        assert IsOtherUser(me)(others[k]);
      }
    }
    opts
  }

  /** Options for a concatenated list are the options of each part: the
      server's order is kept. */
  lemma UserOptionsKeepOrder(a: seq<ServerUser>, b: seq<ServerUser>, me: int)
    ensures UserOptions(a + b, me) == UserOptions(a, me) + UserOptions(b, me)
  {
    Seqs.FilterAppend(a, b, IsOtherUser(me));
  }

  /** When the signed-in user is not in the list, every user is offered. */
  lemma UserOptionsWithoutMe(users: seq<ServerUser>, me: int)
    requires forall u :: u in users ==> u.id != me
    ensures UserOptions(users, me) == MapOptions(users)
  {
    Seqs.FilterAllKept(users, IsOtherUser(me));
  }

  /** The answer to the user list request; `Users(None)` is a reply without
      a `data` list. */
  datatype UsersReply = UsersError | Users(data: Option<seq<ServerUser>>)

  datatype InviteNotice = UserAdded | AlreadyAdded | AssignFailed | FetchUsersFailed
  {
    function Variant(): Notices.Variant
    {
      match this
      case UserAdded => Notices.Success
      case AlreadyAdded => Notices.Info
      case AssignFailed => Notices.Error
      case FetchUsersFailed => Notices.Error
    }

    function Text(): string
    {
      match this
      case UserAdded => "User added successfully"
      case AlreadyAdded => "User is already added to the project"
      case AssignFailed => "An error occurred in Adding. Please try again"
      case FetchUsersFailed => "An error occurred in fetching users. Please try again"
    }
  }

  /** Only the assignment success is a success notice, only the already-added
      reply informational, and both failures are errors; every notice has its
      own text. */
  lemma InviteNoticeKinds(n: InviteNotice, m: InviteNotice)
    ensures n.Variant() == Notices.Success <==> n.UserAdded?
    ensures n.Variant() == Notices.Info <==> n.AlreadyAdded?
    ensures n.Variant() == Notices.Error <==> n.AssignFailed? || n.FetchUsersFailed?
    ensures n.Text() == m.Text() <==> n == m
  {
  }

  /** `fetchUsers`: the new option list, the notice, and the loading flag
      (false afterwards). A reply with a list replaces the options; a reply
      without one keeps them; a failure keeps them and shows a notice. */
  datatype FetchUsersOutcome = FetchUsersOutcome(options: seq<UserOption>, notice: Option<InviteNotice>, loading: bool)

  function FetchUsers(options: seq<UserOption>, me: int, reply: UsersReply): (r: FetchUsersOutcome)
    ensures !r.loading
    ensures reply.Users? && reply.data.Some? ==> r.options == UserOptions(reply.data.value, me) && r.notice.None?
    ensures reply.Users? && reply.data.None? ==> r.options == options && r.notice.None?
    ensures reply.UsersError? ==> r.options == options && r.notice == Some(FetchUsersFailed)
  {
    match reply
    case UsersError => FetchUsersOutcome(options, Some(FetchUsersFailed), false)
    case Users(data) =>
      if data.Some? then FetchUsersOutcome(UserOptions(data.value, me), None, false)
      else FetchUsersOutcome(options, None, false)
  }

  const AssignedMessage: string := "User assigned to project successfully."
  const AlreadyAddedMessage: string := "User already added to project."

  /** The notice for the server's reply message: success for the assigned
      message, info for the already-added message, nothing for any other. */
  function ClassifyAssignMessage(message: string): (n: Option<InviteNotice>)
    ensures n == Some(UserAdded) <==> message == AssignedMessage
    ensures n == Some(AlreadyAdded) <==> message == AlreadyAddedMessage
    ensures n.None? <==> message != AssignedMessage && message != AlreadyAddedMessage
  {
    if message == AssignedMessage then Some(UserAdded)
    else if message == AlreadyAddedMessage then Some(AlreadyAdded)
    else None
  }

  /** The answer to an assignment request. */
  datatype AssignReply = AssignError | Assigned(message: string)

  /** `handleAddClick`: the notice shown and whether `onUserAdded` is called. */
  datatype AddOutcome = AddOutcome(notice: Option<InviteNotice>, callsOnUserAdded: bool)

  function HandleAddClick(reply: AssignReply): (r: AddOutcome)
    ensures r.callsOnUserAdded <==> reply.Assigned?
    ensures reply.Assigned? ==> r.notice == ClassifyAssignMessage(reply.message)
    ensures reply.AssignError? ==> r.notice == Some(AssignFailed)
  {
    match reply
    case AssignError => AddOutcome(Some(AssignFailed), false)
    case Assigned(message) => AddOutcome(ClassifyAssignMessage(message), true)
  }
}
