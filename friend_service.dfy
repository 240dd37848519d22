/** The social features of src/services/friendService.ts: searching a user by
    code, the friend-request life cycle over the `friend_requests` and
    `friendships` tables, the "friends training today" join and workout
    invites. The tables are fields of `SocialGraph`; the signed-in user is a
    parameter (`None`: nobody signed in). */
module FriendService {
  import opened Common
  import opened Strings
  import opened DayNumbers
  import ProgramTypes

  datatype RequestStatus = Pending | Accepted | Rejected

  datatype FriendRequest = FriendRequest(id: Id, senderId: Id, receiverId: Id, status: RequestStatus)

  /** A `friendships` row: `userId` counts `friendId` as a friend. The table is
      unique on the pair, so it is a set of directed edges. */
  datatype Edge = Edge(userId: Id, friendId: Id)

  /** The `profiles` columns the social queries read. */
  datatype ProfileRow = ProfileRow(
    id: Id, displayName: Option<string>, userCode: Option<string>, avatarUrl: Option<string>)

  datatype InviteStatus = InvitePending | InviteAccepted | InviteRejected

  datatype WorkoutInvite = WorkoutInvite(
    id: Id, senderId: Id, receiverId: Id, message: Option<string>, inviteDate: Day, status: InviteStatus)

  const NotSignedIn := "Oturum açılmamış"

  /** An error the backend reports for a write, with its Postgres code. */
  datatype BackendError = BackendError(code: string, message: string)

  /** The Postgres code of a unique-key violation. */
  const UniqueViolation := "23505"

  /** The backend calls of `acceptFriendRequest` that can fail, at most one of
      them: fetching the request, updating its status, inserting the
      accepter's edge and inserting the sender's edge. A unique-key violation
      on an edge insert is no failure: the edge is already there, which the
      set of edges states without an error. */
  datatype AcceptFailure =
    | NoFailure
    | RequestFetchFails
    | StatusUpdateFails(error: string)
    | FirstEdgeFails(error: string)
    | SecondEdgeFails(error: string)

  // ---------------------------------------------------------------------
  // Searching by user code

  /** The code `searchUserByCode` looks for: upper-cased, then trimmed. */
  function NormalizeCode(code: string): (r: string)
    ensures |r| <= |code|
  {
    Trim(ToUpper(code))
  }

  /** A normalised code has no lower-case letter and no surrounding white space,
      and normalising it again changes nothing. */
  lemma NormalizeCodeNormal(code: string)
    ensures NoLower(NormalizeCode(code))
    ensures var r := NormalizeCode(code); r == [] || (!IsSpace(r[0]) && !IsSpace(r[|r| - 1]))
    ensures NormalizeCode(NormalizeCode(code)) == NormalizeCode(code)
  {
    var up := ToUpper(code);
    assert NoLower(up);
    TrimKeepsNoLower(up);
    TrimIsTrimmed(up);
    ToUpperOfNoLower(Trim(up));
  }

  function ProfilesWithCode(profiles: seq<ProfileRow>, code: string): (r: seq<ProfileRow>)
    ensures forall p :: p in r <==> p in profiles && p.userCode == Some(code)
  {
    if profiles == [] then []
    else (if profiles[0].userCode == Some(code) then [profiles[0]] else []) + ProfilesWithCode(profiles[1..], code)
  }

  /** Why `searchUserByCode` throws: the query failed, or `maybeSingle` saw
      more than one row. */
  datatype SearchError<E> = QueryFailed(error: E) | MultipleRows

  /** `searchUserByCode` (`maybeSingle`): a failed query rethrows its error, no
      match is `null`, one match is the profile, several matches are an error.
      `queryError` is the error the backend reports for the query itself. */
  function SearchUserByCode<E>(profiles: seq<ProfileRow>, code: string, queryError: Option<E>)
    : (r: Result<Option<ProfileRow>, SearchError<E>>)
    ensures queryError.Some? ==> r == Err(QueryFailed(queryError.value))
    ensures queryError.None? ==>
      (r.Err? <==> |ProfilesWithCode(profiles, NormalizeCode(code))| >= 2)
    ensures queryError.None? && |ProfilesWithCode(profiles, NormalizeCode(code))| == 0 ==> r == Ok(None)
    ensures queryError.None? && |ProfilesWithCode(profiles, NormalizeCode(code))| == 1 ==>
      r == Ok(Some(ProfilesWithCode(profiles, NormalizeCode(code))[0]))
    ensures r.Ok? && r.value.Some? ==>
      r.value.value in profiles && r.value.value.userCode == Some(NormalizeCode(code))
    ensures r.Ok? && r.value.None? ==> forall p :: p in profiles ==> p.userCode != Some(NormalizeCode(code))
  {
    if queryError.Some? then Err(QueryFailed(queryError.value))
    else
      var found := ProfilesWithCode(profiles, NormalizeCode(code));
      if |found| == 0 then Ok(None)
      else if |found| == 1 then Ok(Some(found[0]))
      else Err(MultipleRows)
  }

  // ---------------------------------------------------------------------
  // The guards of sendFriendRequest

  /** The `friend_requests` table, keyed by row id. */
  type Requests = map<Id, FriendRequest>

  function ProfileCount(profiles: seq<ProfileRow>, id: Id): nat
  {
    if profiles == [] then 0 else (if profiles[0].id == id then 1 else 0) + ProfileCount(profiles[1..], id)
  }

  /** A pending request between `a` and `b`, in either direction. */
  predicate PendingBetween(q: FriendRequest, a: Id, b: Id)
  {
    q.status == Pending &&
    ((q.senderId == a && q.receiverId == b) || (q.senderId == b && q.receiverId == a))
  }

  /** The ids of the rows the pending check matches. */
  function PendingIds(requests: Requests, a: Id, b: Id): (r: set<Id>)
    ensures forall k :: k in r <==> k in requests && PendingBetween(requests[k], a, b)
  {
    set k | k in requests && PendingBetween(requests[k], a, b)
  }

  /** Why `sendFriendRequest` refuses, or `None` when it goes on to insert. The
      receiver check is a `maybeSingle` on the id, and so is the pending check:
      it sees a request only when exactly one matches. */
  function SendRefusal(
    profiles: seq<ProfileRow>, requests: Requests, friendships: set<Edge>,
    me: Option<Id>, receiverId: Id): (r: Option<string>)
    ensures me.None? ==> r == Some(NotSignedIn)
    ensures me == Some(receiverId) ==> r == Some("Kendinize arkadaşlık isteği gönderemezsiniz")
    ensures me.Some? && me.value != receiverId && ProfileCount(profiles, receiverId) != 1 ==>
      r == Some("Kullanıcı bulunamadı")
    ensures (me.Some? && me.value != receiverId && ProfileCount(profiles, receiverId) == 1 &&
      Edge(me.value, receiverId) in friendships)
      ==> r == Some("Bu kişi zaten arkadaşınız")
    ensures r.None? <==> (me.Some? && me.value != receiverId &&
      ProfileCount(profiles, receiverId) == 1 &&
      Edge(me.value, receiverId) !in friendships &&
      |PendingIds(requests, me.value, receiverId)| != 1)
  {
    if me.None? then Some(NotSignedIn)
    else if me.value == receiverId then Some("Kendinize arkadaşlık isteği gönderemezsiniz")
    else if ProfileCount(profiles, receiverId) != 1 then Some("Kullanıcı bulunamadı")
    else if Edge(me.value, receiverId) in friendships then Some("Bu kişi zaten arkadaşınız")
    else
      var pending := PendingIds(requests, me.value, receiverId);
      if |pending| == 1 then
        if exists k :: k in pending && requests[k].senderId == receiverId
        then Some("Bu kişi size zaten istek göndermiş! İstekler sekmesinden kabul edebilirsiniz.")
        else Some("Bu kişiye zaten istek gönderdiniz")
      else None
  }

  /** The refusal for the one pending request names its direction: an incoming
      request and an outgoing one give different errors. */
  lemma SendRefusalDirection(
    profiles: seq<ProfileRow>, requests: Requests, friendships: set<Edge>, me: Id, receiverId: Id, k: Id)
    requires me != receiverId && ProfileCount(profiles, receiverId) == 1
    requires Edge(me, receiverId) !in friendships
    requires PendingIds(requests, me, receiverId) == {k}
    ensures requests[k].senderId == receiverId ==>
      SendRefusal(profiles, requests, friendships, Some(me), receiverId) ==
      Some("Bu kişi size zaten istek göndermiş! İstekler sekmesinden kabul edebilirsiniz.")
    ensures requests[k].senderId == me ==>
      SendRefusal(profiles, requests, friendships, Some(me), receiverId) == Some("Bu kişiye zaten istek gönderdiniz")
  {
    assert k in PendingIds(requests, me, receiverId);
  }

  /** No two pending requests join the same two users. */
  ghost predicate OnePendingPerPair(requests: Requests)
  {
    forall i, j :: i in requests && j in requests && i != j && requests[i].status == Pending ==>
      !PendingBetween(requests[j], requests[i].senderId, requests[i].receiverId)
  }

  /** Under that invariant the pending check matches at most one row. */
  lemma AtMostOnePending(requests: Requests, a: Id, b: Id)
    requires OnePendingPerPair(requests)
    ensures |PendingIds(requests, a, b)| <= 1
  {
    var ps := PendingIds(requests, a, b);
    if ps != {} {
      var x :| x in ps;
      forall y | y in ps ensures y == x {
        assert PendingBetween(requests[y], requests[x].senderId, requests[x].receiverId);
      }
      assert ps == {x};
    }
  }

  /** So when the check sees nothing, there is nothing. */
  lemma NoPendingLeft(requests: Requests, a: Id, b: Id)
    requires OnePendingPerPair(requests)
    requires |PendingIds(requests, a, b)| != 1
    ensures PendingIds(requests, a, b) == {}
  {
    AtMostOnePending(requests, a, b);
  }

  // ---------------------------------------------------------------------
  // Friends training today

  /** A `schedule_instances` row of today as the join returns it: `ownerId` and
      `programTitle` are the embedded program's (`None` when the embedding is
      null) and `workoutTitle` the embedded workout's. */
  datatype ScheduleView = ScheduleView(
    id: Id, status: ProgramTypes.ScheduleStatus,
    ownerId: Option<Id>, programTitle: Option<string>, workoutTitle: Option<string>)

  datatype FriendToday = FriendToday(
    friendId: Id, friendName: string, friendCode: string, friendAvatar: Option<string>,
    workoutTitle: string, programTitle: string, status: ProgramTypes.ScheduleStatus, scheduleId: Id)

  /** `friendIds`: whom `me` counts as a friend. */
  function FriendIds(friendships: set<Edge>, me: Id): (r: set<Id>)
    ensures forall f :: f in r <==> Edge(me, f) in friendships
  {
    set e | e in friendships && e.userId == me :: e.friendId
  }

  /** `profileMap.get(id)`: the map is built from the rows in order, so the last
      row with the id wins. */
  function ProfileOf(profiles: seq<ProfileRow>, id: Id): (r: Option<ProfileRow>)
    ensures r.None? <==> forall p :: p in profiles ==> p.id != id
    ensures r.Some? ==> r.value in profiles && r.value.id == id
    decreases |profiles|
  {
    if profiles == [] then None
    else if profiles[|profiles| - 1].id == id then Some(profiles[|profiles| - 1])
    else ProfileOf(profiles[..|profiles| - 1], id)
  }

  /** Whether a schedule row makes it into the result. */
  predicate Kept(s: ScheduleView, friends: set<Id>, profiles: seq<ProfileRow>)
  {
    s.ownerId.Some? && s.ownerId.value in friends && ProfileOf(profiles, s.ownerId.value).Some?
  }

  /** The result row of a kept schedule, with the defaults for missing names. */
  function TodayRow(s: ScheduleView, p: ProfileRow): (r: FriendToday)
    requires s.ownerId.Some?
    ensures r.friendId == s.ownerId.value && r.scheduleId == s.id && r.status == s.status
    ensures r.friendName == p.displayName.GetOr("Kullanıcı") && r.friendCode == p.userCode.GetOr("")
    ensures r.friendAvatar == p.avatarUrl
    ensures r.workoutTitle == s.workoutTitle.GetOr("Antrenman") && r.programTitle == s.programTitle.GetOr("Program")
  {
    FriendToday(s.ownerId.value, p.displayName.GetOr("Kullanıcı"), p.userCode.GetOr(""), p.avatarUrl,
                s.workoutTitle.GetOr("Antrenman"), s.programTitle.GetOr("Program"), s.status, s.id)
  }

  /** The join: the kept schedules, in order, each as its row. */
  function FriendsToday(schedules: seq<ScheduleView>, friends: set<Id>, profiles: seq<ProfileRow>): (r: seq<FriendToday>)
    ensures |r| <= |schedules|
    ensures forall k :: 0 <= k < |r| ==> r[k].friendId in friends && ProfileOf(profiles, r[k].friendId).Some?
    ensures friends == {} ==> r == []
    decreases |schedules|
  {
    if schedules == [] then []
    else
      var n := |schedules| - 1;
      var s := schedules[n];
      FriendsToday(schedules[..n], friends, profiles) +
        (if Kept(s, friends, profiles) then [TodayRow(s, ProfileOf(profiles, s.ownerId.value).value)] else [])
  }

  /** Every kept schedule gives a row and every row comes from a kept schedule. */
  lemma {:induction false} FriendsTodayExact(schedules: seq<ScheduleView>, friends: set<Id>, profiles: seq<ProfileRow>)
    ensures forall s :: s in schedules && Kept(s, friends, profiles) ==>
      TodayRow(s, ProfileOf(profiles, s.ownerId.value).value) in FriendsToday(schedules, friends, profiles)
    ensures forall row :: row in FriendsToday(schedules, friends, profiles) ==>
      exists s :: s in schedules && Kept(s, friends, profiles) && row == TodayRow(s, ProfileOf(profiles, s.ownerId.value).value)
    decreases |schedules|
  {
    if schedules != [] {
      var n := |schedules| - 1;
      FriendsTodayExact(schedules[..n], friends, profiles);
      assert schedules == schedules[..n] + [schedules[n]];
      forall s | s in schedules ensures s in schedules[..n] || s == schedules[n] {
      }
      forall s | s in schedules[..n] ensures s in schedules {
      }
    }
  }

  // ---------------------------------------------------------------------
  // The tables

  class SocialGraph {
    var profiles: seq<ProfileRow>
    var requests: Requests
    var friendships: set<Edge>
    var invites: map<Id, WorkoutInvite>
    /** The next id the backend hands out. */
    var nextId: nat

    /** Rows sit under their own issued id, and between two users there is at
        most one pending request. */
    ghost predicate Valid()
      reads this
    {
      (forall k :: k in requests ==> requests[k].id == k && k < nextId) &&
      (forall k :: k in invites ==> invites[k].id == k && k < nextId) &&
      OnePendingPerPair(requests)
    }

    constructor (profiles: seq<ProfileRow>)
      ensures Valid()
      ensures this.profiles == profiles && requests == map[] && friendships == {} && invites == map[]
    {
      this.profiles := profiles;
      requests, friendships, invites, nextId := map[], {}, map[], 0;
    }

    /** `sendFriendRequest`; `insertError` is the error the backend reports for
        the insert, a unique-key violation getting its own message. */
    method SendFriendRequest(me: Option<Id>, receiverId: Id, insertError: Option<BackendError>)
      returns (r: Result<FriendRequest, string>)
      requires Valid()
      modifies this
      ensures Valid()
      ensures profiles == old(profiles) && friendships == old(friendships) && invites == old(invites)
      ensures var refusal := SendRefusal(old(profiles), old(requests), old(friendships), me, receiverId);
        (refusal.Some? ==> r == Err(refusal.value) && requests == old(requests)) &&
        (refusal.None? && insertError.Some? ==>
           r == Err(if insertError.value.code == UniqueViolation then "Bu kişiye zaten istek gönderilmiş"
                    else insertError.value.message) &&
           requests == old(requests)) &&
        (refusal.None? && insertError.None? ==> (
           r.Ok? &&
           r.value == FriendRequest(old(nextId), me.value, receiverId, Pending) &&
           old(nextId) !in old(requests) &&
           requests == old(requests)[old(nextId) := r.value]))
    {
      var refusal := SendRefusal(profiles, requests, friendships, me, receiverId);
      if refusal.Some? {
        return Err(refusal.value);
      }
      if insertError.Some? {
        if insertError.value.code == UniqueViolation {
          return Err("Bu kişiye zaten istek gönderilmiş");
        }
        return Err(insertError.value.message);
      }
      NoPendingLeft(requests, me.value, receiverId);
      var q := FriendRequest(nextId, me.value, receiverId, Pending);
      requests := requests[nextId := q];
      nextId := nextId + 1;
      r := Ok(q);
    }

    /** `acceptFriendRequest`. Only the receiver may accept, and only a pending
        request; the request becomes accepted and both directed edges exist,
        unless the accepter already counted the sender as a friend, in which
        case only the status changes and the update's error is ignored. The
        steps are not atomic: a failing edge insert leaves the request accepted
        with the edges inserted before it. */
    method AcceptFriendRequest(me: Option<Id>, requestId: Id, failure: AcceptFailure)
      returns (r: Result<(), string>)
      requires Valid()
      modifies this
      ensures Valid()
      ensures profiles == old(profiles) && invites == old(invites) && nextId == old(nextId)
      ensures me.None? ==> r == Err(NotSignedIn) && requests == old(requests) && friendships == old(friendships)
      ensures me.Some? && (requestId !in old(requests) || failure.RequestFetchFails?) ==>
        r == Err("İstek bulunamadı") && requests == old(requests) && friendships == old(friendships)
      ensures me.Some? && requestId in old(requests) && !failure.RequestFetchFails? ==>
        var q := old(requests)[requestId];
        (q.receiverId != me.value ==>
           r == Err("Bu isteği kabul etme yetkiniz yok") &&
           requests == old(requests) && friendships == old(friendships)) &&
        (q.receiverId == me.value && q.status != Pending ==>
           r == Err("Bu istek zaten işlenmiş") && requests == old(requests) && friendships == old(friendships))
      ensures me.Some? && requestId in old(requests) && !failure.RequestFetchFails? &&
              old(requests)[requestId].receiverId == me.value && old(requests)[requestId].status == Pending ==>
        var q := old(requests)[requestId];
        var accepted := old(requests)[requestId := q.(status := Accepted)];
        var mine := Edge(me.value, q.senderId);
        (mine in old(friendships) ==>
           r.Ok? && friendships == old(friendships) &&
           requests == (if failure.StatusUpdateFails? then old(requests) else accepted)) &&
        (mine !in old(friendships) ==>
           (failure.StatusUpdateFails? ==>
              r == Err(failure.error) && requests == old(requests) && friendships == old(friendships)) &&
           (failure.FirstEdgeFails? ==>
              r == Err(failure.error) && requests == accepted && friendships == old(friendships)) &&
           (failure.SecondEdgeFails? ==>
              r == Err(failure.error) && requests == accepted && friendships == old(friendships) + {mine}) &&
           (failure.NoFailure? ==>
              r.Ok? && requests == accepted && friendships == old(friendships) + {mine, Edge(q.senderId, me.value)}))
    {
      if me.None? {
        return Err(NotSignedIn);
      }
      if failure.RequestFetchFails? || requestId !in requests {
        return Err("İstek bulunamadı");
      }
      var q := requests[requestId];
      if q.receiverId != me.value {
        return Err("Bu isteği kabul etme yetkiniz yok");
      }
      if q.status != Pending {
        return Err("Bu istek zaten işlenmiş");
      }
      if Edge(me.value, q.senderId) in friendships {
        if !failure.StatusUpdateFails? {
          requests := requests[requestId := q.(status := Accepted)];
        }
        return Ok(());
      }
      if failure.StatusUpdateFails? {
        return Err(failure.error);
      }
      requests := requests[requestId := q.(status := Accepted)];
      if failure.FirstEdgeFails? {
        return Err(failure.error);
      }
      friendships := friendships + {Edge(me.value, q.senderId)};
      if failure.SecondEdgeFails? {
        return Err(failure.error);
      }
      friendships := friendships + {Edge(q.senderId, me.value)};
      r := Ok(());
    }

    /** `rejectFriendRequest`: the row with that id becomes rejected if the
        caller is its receiver, whatever its status; otherwise nothing changes.
        `updateError` is the error the backend reports for the update. */
    method RejectFriendRequest(me: Option<Id>, requestId: Id, updateError: Option<string>)
      returns (r: Result<(), string>)
      requires Valid()
      modifies this
      ensures Valid()
      ensures profiles == old(profiles) && friendships == old(friendships) && invites == old(invites)
      ensures me.None? ==> r == Err(NotSignedIn) && requests == old(requests)
      ensures me.Some? && updateError.Some? ==> r == Err(updateError.value) && requests == old(requests)
      ensures me.Some? && updateError.None? ==> r.Ok?
      ensures me.Some? && updateError.None? ==>
        requests == if requestId in old(requests) && old(requests)[requestId].receiverId == me.value
                    then old(requests)[requestId := old(requests)[requestId].(status := Rejected)]
                    else old(requests)
    {
      if me.None? {
        return Err(NotSignedIn);
      }
      if updateError.Some? {
        return Err(updateError.value);
      }
      if requestId in requests && requests[requestId].receiverId == me.value {
        requests := requests[requestId := requests[requestId].(status := Rejected)];
      }
      r := Ok(());
    }

    /** `cancelFriendRequest`: the row with that id is deleted if the caller is
        its sender, whatever its status; otherwise nothing changes.
        `deleteError` is the error the backend reports for the delete. */
    method CancelFriendRequest(me: Option<Id>, requestId: Id, deleteError: Option<string>)
      returns (r: Result<(), string>)
      requires Valid()
      modifies this
      ensures Valid()
      ensures profiles == old(profiles) && friendships == old(friendships) && invites == old(invites)
      ensures me.None? ==> r == Err(NotSignedIn) && requests == old(requests)
      ensures me.Some? && deleteError.Some? ==> r == Err(deleteError.value) && requests == old(requests)
      ensures me.Some? && deleteError.None? ==> r.Ok?
      ensures me.Some? && deleteError.None? ==>
        requests == if requestId in old(requests) && old(requests)[requestId].senderId == me.value
                    then old(requests) - {requestId}
                    else old(requests)
    {
      if me.None? {
        return Err(NotSignedIn);
      }
      if deleteError.Some? {
        return Err(deleteError.value);
      }
      if requestId in requests && requests[requestId].senderId == me.value {
        requests := requests - {requestId};
      }
      r := Ok(());
    }

    /** `removeFriend`: only the caller's own edge to the friend goes; the
        reverse edge is left to a database trigger outside this model. A failed
        delete (`deleteFails`) is reported with a message of its own. */
    method RemoveFriend(me: Option<Id>, friendshipId: Id, friendId: Id, deleteFails: bool)
      returns (r: Result<(), string>)
      requires Valid()
      modifies this
      ensures Valid()
      ensures profiles == old(profiles) && requests == old(requests) && invites == old(invites)
      ensures me.None? ==> r == Err(NotSignedIn) && friendships == old(friendships)
      ensures me.Some? && deleteFails ==>
        r == Err("Arkadaşlık sonlandırılamadı") && friendships == old(friendships)
      ensures me.Some? && !deleteFails ==> r.Ok? && friendships == old(friendships) - {Edge(me.value, friendId)}
    {
      if me.None? {
        return Err(NotSignedIn);
      }
      if deleteFails {
        return Err("Arkadaşlık sonlandırılamadı");
      }
      friendships := friendships - {Edge(me.value, friendId)};
      r := Ok(());
    }

    /** `fetchFriendsTodayWorkouts` over today's schedule rows. The errors the
        backend reports for the three queries (friendships, schedules,
        profiles) are parameters; the last two queries run only for a user
        with friends. */
    method FetchFriendsTodayWorkouts(me: Option<Id>, schedules: seq<ScheduleView>,
                                     friendError: Option<string>, scheduleError: Option<string>,
                                     profileError: Option<string>)
      returns (r: Result<seq<FriendToday>, string>)
      ensures me.None? ==> r == Err(NotSignedIn)
      ensures me.Some? && friendError.Some? ==> r == Err(friendError.value)
      ensures me.Some? && friendError.None? && FriendIds(friendships, me.value) == {} ==> r == Ok([])
      ensures me.Some? && friendError.None? && FriendIds(friendships, me.value) != {} ==>
        (scheduleError.Some? ==> r == Err(scheduleError.value)) &&
        (scheduleError.None? && profileError.Some? ==> r == Err(profileError.value))
      ensures me.Some? && friendError.None? &&
              (FriendIds(friendships, me.value) == {} || (scheduleError.None? && profileError.None?)) ==>
        var friends := FriendIds(friendships, me.value);
        r == Ok(FriendsToday(schedules, friends, ProfilesOf(profiles, friends)))
    {
      if me.None? {
        return Err(NotSignedIn);
      }
      if friendError.Some? {
        return Err(friendError.value);
      }
      var friendIds := FriendIds(friendships, me.value);
      if friendIds == {} {
        return Ok([]);
      }
      if scheduleError.Some? {
        return Err(scheduleError.value);
      }
      if profileError.Some? {
        return Err(profileError.value);
      }
      var loaded := ProfilesOf(profiles, friendIds);
      var results: seq<FriendToday> := [];
      for i := 0 to |schedules|
        invariant results == FriendsToday(schedules[..i], friendIds, loaded)
      {
        assert schedules[..i + 1][..i] == schedules[..i];
        var s := schedules[i];
        if s.ownerId.None? || s.ownerId.value !in friendIds {
          continue;
        }
        var profile := ProfileOf(loaded, s.ownerId.value);
        if profile.None? {
          continue;
        }
        results := results + [TodayRow(s, profile.value)];
      }
      assert schedules[..|schedules|] == schedules;
      r := Ok(results);
    }

    /** `sendWorkoutInvite`: a pending invite dated today; the receiver is not
        checked. `insertError` is the error the backend reports for the insert. */
    method SendWorkoutInvite(me: Option<Id>, receiverId: Id, message: Option<string>, today: Day,
                             insertError: Option<string>)
      returns (r: Result<WorkoutInvite, string>)
      requires Valid()
      modifies this
      ensures Valid()
      ensures profiles == old(profiles) && requests == old(requests) && friendships == old(friendships)
      ensures me.None? ==> r == Err(NotSignedIn) && invites == old(invites)
      ensures me.Some? && insertError.Some? ==> r == Err(insertError.value) && invites == old(invites)
      ensures me.Some? && insertError.None? ==> (
        r.Ok? &&
        r.value == WorkoutInvite(old(nextId), me.value, receiverId, message, today, InvitePending) &&
        old(nextId) !in old(invites) &&
        invites == old(invites)[old(nextId) := r.value])
    {
      if me.None? {
        return Err(NotSignedIn);
      }
      if insertError.Some? {
        return Err(insertError.value);
      }
      var inv := WorkoutInvite(nextId, me.value, receiverId, message, today, InvitePending);
      invites := invites[nextId := inv];
      nextId := nextId + 1;
      r := Ok(inv);
    }

    /** `respondToWorkoutInvite`: the invite with that id takes the answer; the
        caller is not checked and an unknown id changes nothing. `updateError`
        is the error the backend reports for the update. */
    method RespondToWorkoutInvite(inviteId: Id, accept: bool, updateError: Option<string>)
      returns (r: Result<(), string>)
      requires Valid()
      modifies this
      ensures Valid()
      ensures profiles == old(profiles) && requests == old(requests) && friendships == old(friendships)
      ensures updateError.Some? ==> r == Err(updateError.value) && invites == old(invites)
      ensures updateError.None? ==> r.Ok?
      ensures updateError.None? ==>
        invites ==
          if inviteId in old(invites)
          then old(invites)[inviteId := old(invites)[inviteId].(status := if accept then InviteAccepted else InviteRejected)]
          else old(invites)
    {
      if updateError.Some? {
        return Err(updateError.value);
      }
      if inviteId in invites {
        invites := invites[inviteId := invites[inviteId].(status := if accept then InviteAccepted else InviteRejected)];
      }
      r := Ok(());
    }
  }

  /** The profiles query `in('id', friendIds)`: the rows of friends, in order. */
  function ProfilesOf(profiles: seq<ProfileRow>, friends: set<Id>): (r: seq<ProfileRow>)
    ensures forall p :: p in r <==> p in profiles && p.id in friends
  {
    if profiles == [] then []
    else (if profiles[0].id in friends then [profiles[0]] else []) + ProfilesOf(profiles[1..], friends)
  }
}
