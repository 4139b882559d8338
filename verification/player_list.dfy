/**
 * The section predicates of front/src/features/players/PlayerList.tsx: the
 * player list shows every known player under Friends, Other players and
 * Blocked players, and which sections a player appears in depends only on
 * whether its id occurs in the friends list and in the block list.
 */
module PlayerList {
  import opened Wrappers

  /** A user as the list sees it; only the id decides membership. */
  datatype Player = Player(id: string, nickname: string)

  /** `list.some(p => p.id === id)`. */
  function HasId(list: seq<Player>, id: string): (r: bool)
    ensures r <==> exists i :: 0 <= i < |list| && list[i].id == id
  {
    if |list| == 0 then false
    else if list[0].id == id then true
    else
      var rest := HasId(list[1..], id);
      assert forall i :: 0 < i < |list| ==> list[i] == list[1..][i - 1];
      rest
  }

  /** userIsFriend: false for a missing user or list, else whether some friend has the user's id. */
  function UserIsFriend(user: Option<Player>, friends: Option<seq<Player>>): (r: bool)
    ensures user.None? || friends.None? ==> !r
    ensures user.Some? && friends.Some? ==>
      (r <==> exists i :: 0 <= i < |friends.value| && friends.value[i].id == user.value.id)
  {
    friends.Some? && user.Some? && HasId(friends.value, user.value.id)
  }

  /** userIsBlocked: false for a missing user or list, else whether some blocked player has the user's id. */
  function UserIsBlocked(user: Option<Player>, blocked: Option<seq<Player>>): (r: bool)
    ensures user.None? || blocked.None? ==> !r
    ensures user.Some? && blocked.Some? ==>
      (r <==> exists i :: 0 <= i < |blocked.value| && blocked.value[i].id == user.value.id)
  {
    blocked.Some? && user.Some? && HasId(blocked.value, user.value.id)
  }

  /** userIsOther: the user's id is in neither list. */
  function UserIsOther(user: Player, friends: seq<Player>, blocked: seq<Player>): (r: bool)
    ensures r <==> ((forall i :: 0 <= i < |friends| ==> friends[i].id != user.id)
                    && (forall i :: 0 <= i < |blocked| ==> blocked[i].id != user.id))
  {
    !(HasId(friends, user.id) || HasId(blocked, user.id))
  }

  /** The players of `all` that satisfy `keep`, in their order: `all.filter(keep)`. */
  function Filter(all: seq<Player>, keep: Player -> bool): (r: seq<Player>)
    ensures |r| <= |all|
    ensures forall p :: p in r <==> p in all && keep(p)
  {
    if |all| == 0 then []
    else
      var rest := Filter(all[1..], keep);
      assert forall p :: p in all <==> p == all[0] || p in all[1..];
      if keep(all[0]) then [all[0]] + rest else rest
  }

  function FriendsSection(all: seq<Player>, friends: seq<Player>): seq<Player> {
    Filter(all, p => UserIsFriend(Some(p), Some(friends)))
  }

  function OtherSection(all: seq<Player>, friends: seq<Player>, blocked: seq<Player>): seq<Player> {
    Filter(all, p => UserIsOther(p, friends, blocked))
  }

  function BlockedSection(all: seq<Player>, blocked: seq<Player>): seq<Player> {
    Filter(all, p => UserIsBlocked(Some(p), Some(blocked)))
  }

  /**
   * Every player is listed somewhere; Other players holds exactly those in
   * neither list, and a player in both lists shows under Friends and Blocked.
   */
  lemma SectionsCoverPlayers(all: seq<Player>, friends: seq<Player>, blocked: seq<Player>)
    ensures forall p :: p in all ==>
      p in FriendsSection(all, friends) || p in OtherSection(all, friends, blocked) || p in BlockedSection(all, blocked)
    ensures forall p :: p in OtherSection(all, friends, blocked) ==>
      p !in FriendsSection(all, friends) && p !in BlockedSection(all, blocked)
    ensures forall p :: p in all && HasId(friends, p.id) && HasId(blocked, p.id) ==>
      p in FriendsSection(all, friends) && p in BlockedSection(all, blocked) && p !in OtherSection(all, friends, blocked)
  {
  }
}
