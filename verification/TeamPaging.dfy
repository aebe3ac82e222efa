/** Paging through a team's messages. */
module TeamPaging {
  import opened Wrappers
  import opened Text
  import opened TeamIndex
  import opened TeamState

  datatype Page = Page(messages: seq<Message>, next: Option<Id>)

  function Clamp(limit: Option<nat>): nat {
    var asked := limit.GetOr(100);
    if asked < 1 then 1 else if asked > 500 then 500 else asked
  }

  function Position(ids: seq<Id>, id: Id): Option<nat> {
    if ids == [] then None
    else if ids[0] == id then Some(0)
    else
      var rest := Position(ids[1..], id);
      if rest.Some? then Some(rest.value + 1) else None
  }

  function Present(messages: map<Id, Message>, ids: seq<Id>): seq<Message> {
    if ids == [] then []
    else Present(messages, ids[..|ids| - 1])
         + if ids[|ids| - 1] in messages then [messages[ids[|ids| - 1]]] else []
  }

  /** Where a page starts: after the cursor, or at the beginning. */
  function Start(ids: seq<Id>, cursor: Option<Id>): Option<nat> {
    var given := NonEmpty(cursor);
    if given.None? then Some(0)
    else
      var at := Position(ids, given.value);
      if at.Some? then Some(at.value + 1) else None
  }

  function Upto(ids: seq<Id>, limit: nat): seq<Id> {
    if |ids| <= limit then ids else ids[..limit]
  }

  lemma {:induction false} PositionFits(ids: seq<Id>, id: Id)
    ensures Position(ids, id).Some? ==> Position(ids, id).value < |ids| && ids[Position(ids, id).value] == id
    ensures Position(ids, id).None? ==> id !in ids
  {
    if ids != [] {
      PositionFits(ids[1..], id);
    }
  }

  /** `list_messages`. */
  function PageOf(s: State, team: Id, cursor: Option<Id>, limit: Option<nat>): Result<Page, Error> {
    var ids := ListOf(s.teamMessages, team);
    var start := Start(ids, cursor);
    if start.None? || start.value > |ids| then Err(InvalidState)
    else
      var page := Present(s.messages, Upto(ids[start.value..], Clamp(limit)));
      Ok(Page(page, if |ids| - start.value > |page| && page != [] then Some(page[|page| - 1].id) else None))
  }

  /** All pages from a cursor on, each asked for with the cursor the last one gave. */
  function Walk(s: State, team: Id, cursor: Option<Id>, limit: Option<nat>, rounds: nat): seq<Message>
    decreases rounds
  {
    var page := PageOf(s, team, cursor, limit);
    if rounds == 0 || page.Err? then []
    else if page.value.next.None? then page.value.messages
    else page.value.messages + Walk(s, team, page.value.next, limit, rounds - 1)
  }

  /** The ids a counter hands out: nothing to trim. */
  ghost predicate PlainIds(ids: seq<Id>) {
    forall i :: 0 <= i < |ids| ==> ids[i] != "" && Trim(ids[i]) == ids[i]
  }

  lemma {:induction false} PresentAll(messages: map<Id, Message>, ids: seq<Id>)
    requires forall i :: 0 <= i < |ids| ==> ids[i] in messages && messages[ids[i]].id == ids[i]
    ensures |Present(messages, ids)| == |ids|
    ensures forall i :: 0 <= i < |ids| ==> Present(messages, ids)[i] == messages[ids[i]]
  {
    if ids != [] {
      PresentAll(messages, ids[..|ids| - 1]);
    }
  }

  lemma {:induction false} PositionAt(ids: seq<Id>, k: nat)
    requires NoRepeats(ids) && k < |ids|
    ensures Position(ids, ids[k]) == Some(k)
  {
    if k > 0 {
      PositionAt(ids[1..], k - 1);
    }
  }

  lemma TeamListed(s: State, team: Id)
    requires RepInv(s)
    ensures
      var ids := ListOf(s.teamMessages, team);
      && NoRepeats(ids)
      && (forall i :: 0 <= i < |ids| ==> ids[i] in s.messages && s.messages[ids[i]].id == ids[i])
      && (forall m :: m in s.messages ==> (m in ids <==> s.messages[m].team == team))
  {
    var ids := ListOf(s.teamMessages, team);
    assert LinksOk(s);
    forall i | 0 <= i < |ids| ensures ids[i] in s.messages {
      assert ids[i] in MessageTeams(s.messages);
    }
    forall m | m in s.messages ensures m in ids <==> s.messages[m].team == team {
      assert m in MessageTeams(s.messages);
    }
  }

  /** The cursor that stands for a position in the list. */
  ghost predicate At(ids: seq<Id>, cursor: Option<Id>, start: nat) {
    start <= |ids| && if start == 0 then NonEmpty(cursor).None? else cursor == Some(ids[start - 1])
  }

  lemma StartIsAt(ids: seq<Id>, cursor: Option<Id>, start: nat)
    requires NoRepeats(ids) && PlainIds(ids) && At(ids, cursor, start)
    ensures Start(ids, cursor) == Some(start)
  {
    if start > 0 {
      PositionAt(ids, start - 1);
      assert Trim(ids[start - 1]) == ids[start - 1];
    }
  }

  lemma PresentConcat(messages: map<Id, Message>, a: seq<Id>, b: seq<Id>)
    requires forall i :: 0 <= i < |a| ==> a[i] in messages && messages[a[i]].id == a[i]
    requires forall i :: 0 <= i < |b| ==> b[i] in messages && messages[b[i]].id == b[i]
    ensures Present(messages, a + b) == Present(messages, a) + Present(messages, b)
  {
    PresentAll(messages, a);
    PresentAll(messages, b);
    PresentAll(messages, a + b);
  }

  /** What a page from a position holds. */
  function Expected(s: State, team: Id, start: nat, limit: nat): Page
    requires start <= |ListOf(s.teamMessages, team)|
  {
    var ids := ListOf(s.teamMessages, team);
    var end := start + |Upto(ids[start..], limit)|;
    Page(Present(s.messages, ids[start..end]), if 0 < end < |ids| then Some(ids[end - 1]) else None)
  }

  lemma PageIs(s: State, team: Id, cursor: Option<Id>, limit: Option<nat>, start: nat)
    requires start <= |ListOf(s.teamMessages, team)| && Start(ListOf(s.teamMessages, team), cursor) == Some(start)
    requires forall i :: 0 <= i < |ListOf(s.teamMessages, team)| ==>
               var id := ListOf(s.teamMessages, team)[i]; id in s.messages && s.messages[id].id == id
    ensures PageOf(s, team, cursor, limit) == Ok(Expected(s, team, start, Clamp(limit)))
  {
    hide Start, Clamp, Present;
    var ids := ListOf(s.teamMessages, team);
    var taken := Upto(ids[start..], Clamp(limit));
    UptoFits(ids, start, Clamp(limit)) by {
      assert Clamp(limit) >= 1 by {
        ClampFits(limit);
      }
    }
    assert taken == ids[start..start + |taken|];
    PresentAll(s.messages, taken);
  }

  lemma ClampFits(limit: Option<nat>)
    ensures 1 <= Clamp(limit) <= 500
  {
  }

  /** A page holds what comes next, and its cursor stands for where it ends. */
  lemma PageAt(s: State, team: Id, cursor: Option<Id>, limit: Option<nat>, start: nat)
    requires RepInv(s) && PlainIds(ListOf(s.teamMessages, team)) && At(ListOf(s.teamMessages, team), cursor, start)
    ensures start <= |ListOf(s.teamMessages, team)|
    ensures PageOf(s, team, cursor, limit) == Ok(Expected(s, team, start, Clamp(limit)))
  {
    var ids := ListOf(s.teamMessages, team);
    TeamListed(s, team);
    StartIsAt(ids, cursor, start);
    AtFits(ids, cursor, start);
    hide RepInv, PlainIds, At, NoRepeats, Start, PageOf, Expected;
    PageIs(s, team, cursor, limit, start);
  }

  lemma AtAfter(ids: seq<Id>, end: nat)
    requires 0 < end <= |ids|
    ensures At(ids, Some(ids[end - 1]), end)
  {
  }

  lemma UptoFits(ids: seq<Id>, start: nat, limit: nat)
    requires start <= |ids| && limit >= 1
    ensures
      var taken := Upto(ids[start..], limit);
      && |taken| <= limit && start + |taken| <= |ids| && (taken == [] ==> start == |ids|)
      && (forall i :: 0 <= i < |taken| ==> taken[i] == ids[start + i])
  {
  }

  lemma {:induction false} WalkFrom(s: State, team: Id, cursor: Option<Id>, limit: Option<nat>, start: nat, rounds: nat)
    requires RepInv(s) && PlainIds(ListOf(s.teamMessages, team)) && At(ListOf(s.teamMessages, team), cursor, start)
    requires rounds > |ListOf(s.teamMessages, team)| - start
    ensures Walk(s, team, cursor, limit, rounds) == Present(s.messages, ListOf(s.teamMessages, team)[start..])
    decreases rounds
  {
    hide RepInv, PageOf, At, PlainIds, Present, NoRepeats, Clamp, Upto;
    var ids := ListOf(s.teamMessages, team);
    PageAt(s, team, cursor, limit, start);
    ClampFits(limit);
    UptoFits(ids, start, Clamp(limit));
    var end := start + |Upto(ids[start..], Clamp(limit))|;
    if end == |ids| {
      assert ids[start..end] == ids[start..];
    } else {
      AtAfter(ids, end);
      WalkFrom(s, team, Some(ids[end - 1]), limit, end, rounds - 1);
      assert ids[start..] == ids[start..end] + ids[end..];
      TeamListed(s, team);
      PresentConcat(s.messages, ids[start..end], ids[end..]);
    }
  }

  lemma AtFits(ids: seq<Id>, cursor: Option<Id>, start: nat)
    requires At(ids, cursor, start)
    ensures start <= |ids|
  {
  }

  /**
  Walking the pages of any size gives every message of the team once, in the order they were sent, and
  ends after at most one page per message.
  */
  lemma PagesCoverTheTeam(s: State, team: Id, limit: Option<nat>, rounds: nat)
    requires RepInv(s) && PlainIds(ListOf(s.teamMessages, team)) && rounds > |ListOf(s.teamMessages, team)|
    ensures
      var all := Walk(s, team, None, limit, rounds);
      var ids := ListOf(s.teamMessages, team);
      && |all| == |ids| && NoRepeats(ids)
      && (forall i :: 0 <= i < |ids| ==> ids[i] in s.messages && all[i] == s.messages[ids[i]])
      && (forall m :: m in s.messages && s.messages[m].team == team ==> m in ids)
  {
    var ids := ListOf(s.teamMessages, team);
    WalkFrom(s, team, None, limit, 0, rounds);
    TeamListed(s, team);
    hide RepInv, Walk;
    assert ids[0..] == ids;
    PresentAll(s.messages, ids);
  }
}
