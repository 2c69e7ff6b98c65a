/** Startup channel selection: of the channels the workspace lists, keep
    the IDs of those whose member list contains the bot's user ID, in listing
    order, and insist that exactly one remains. */
module Channels {
  import opened Outcomes

  /** One entry of the channel listing. */
  datatype Channel = Channel(id: string, members: seq<string>)

  const NotInOneChannel: string := "must only be in one channel"

  /** The inner membership scan: is `user` among `members`? */
  function HasMember(members: seq<string>, user: string): (ok: bool)
    ensures ok <==> user in members
  {
    if |members| == 0 then false
    else members[0] == user || HasMember(members[1..], user)
  }

  /** The IDs of the channels `user` belongs to, in listing order. */
  function Joined(list: seq<Channel>, user: string): (ids: seq<string>)
    ensures |ids| <= |list|
    ensures forall id :: id in ids <==>
      exists i :: 0 <= i < |list| && list[i].id == id && user in list[i].members
  {
    if |list| == 0 then []
    else
      var rest := Joined(list[1..], user);
      assert forall i :: 0 < i < |list| ==> list[i] == list[1..][i - 1];
      if HasMember(list[0].members, user) then [list[0].id] + rest else rest
  }

  /** Filtering distributes over concatenation: the relative order of the
      listing is kept. */
  lemma {:induction false} JoinedAppend(a: seq<Channel>, b: seq<Channel>, user: string)
    ensures Joined(a + b, user) == Joined(a, user) + Joined(b, user)
    decreases |a|
  {
    if |a| == 0 {
      assert a + b == b;
    } else {
      assert (a + b)[1..] == a[1..] + b;
      JoinedAppend(a[1..], b, user);
    }
  }

  /** `i` is the one and only index of a channel containing `user`. */
  ghost predicate OnlyMemberAt(list: seq<Channel>, user: string, i: int) {
    && 0 <= i < |list|
    && user in list[i].members
    && forall j :: 0 <= j < |list| && j != i ==> user !in list[j].members
  }

  ghost predicate NoMemberIn(list: seq<Channel>, user: string) {
    forall j :: 0 <= j < |list| ==> user !in list[j].members
  }

  lemma {:induction false} JoinedEmpty(list: seq<Channel>, user: string)
    ensures Joined(list, user) == [] <==> NoMemberIn(list, user)
  {
    var ids := Joined(list, user);
    forall j | 0 <= j < |list| && user in list[j].members ensures list[j].id in ids { }
    if ids != [] {
      assert ids[0] in ids;
    }
  }

  /** Exactly one ID is kept if and only if exactly one listed channel
      contains the user, and then the kept ID is that channel's. */
  lemma {:induction false} JoinedSingle(list: seq<Channel>, user: string)
    ensures |Joined(list, user)| == 1 <==> exists i :: OnlyMemberAt(list, user, i)
    ensures forall i :: OnlyMemberAt(list, user, i) ==> Joined(list, user) == [list[i].id]
    decreases |list|
  {
    if |list| > 0 {
      var tail := list[1..];
      JoinedSingle(tail, user);
      JoinedEmpty(tail, user);
      forall j | 0 <= j < |tail| ensures tail[j] == list[j + 1] { }
      if user in list[0].members {
        if NoMemberIn(tail, user) {
          assert OnlyMemberAt(list, user, 0);
        } else {
          forall i | 0 <= i < |list| ensures !OnlyMemberAt(list, user, i) {
            if i != 0 {
              assert user in list[0].members;
            } else {
              var j :| 0 <= j < |tail| && user in tail[j].members;
              assert user in list[j + 1].members;
            }
          }
        }
      } else {
        forall i | OnlyMemberAt(tail, user, i) ensures OnlyMemberAt(list, user, i + 1) { }
        forall i | OnlyMemberAt(list, user, i) ensures i > 0 && OnlyMemberAt(tail, user, i - 1) { }
      }
    }
  }

  /** Lines 71-89 of the startup routine: the channel the bot works in, or
      the startup error when it is a member of none or of several. */
  function SelectChannel(list: seq<Channel>, user: string): (r: Result<string>)
    ensures r.Err? <==> |Joined(list, user)| != 1
    ensures r.Ok? <==> exists i :: OnlyMemberAt(list, user, i)
    ensures forall i :: OnlyMemberAt(list, user, i) ==> r == Ok(list[i].id)
    ensures r.Err? ==> r.error == NotInOneChannel
  {
    JoinedSingle(list, user);
    var chans := Joined(list, user);
    if |chans| != 1 then Err(NotInOneChannel) else Ok(chans[0])
  }
}
