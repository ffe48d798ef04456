/** The inboxes of a synchronous client and the manager that creates them and routes into them. */
module Inboxes {
  import opened Options

  datatype Item = Message(id: nat) | MethodRequest(name: string, id: nat) | Patch(id: nat)

  /** How an item left an inbox. */
  datatype Removal = Received(item: Item) | Cleared(item: Item)

  function Items(removals: seq<Removal>): seq<Item> {
    seq(|removals|, i requires 0 <= i < |removals| => removals[i].item)
  }

  function ClearedAll(items: seq<Item>): seq<Removal> {
    seq(|items|, i requires 0 <= i < |items| => Cleared(items[i]))
  }

  /** SyncClientInbox: a first-in first-out queue with a history. */
  class Inbox {
    var queue: seq<Item>
    ghost var put: seq<Item>
    ghost var gone: seq<Removal>

    /** Conservation, in order: what was put is what has gone followed by what is queued. */
    ghost predicate Valid()
      reads this
    {
      put == Items(gone) + queue
    }

    constructor ()
      ensures Valid() && queue == [] && put == [] && gone == []
    {
      queue, put, gone := [], [], [];
    }

    method Put(item: Item)
      requires Valid()
      modifies this
      ensures Valid() && queue == old(queue) + [item] && put == old(put) + [item] && gone == old(gone)
    {
      queue := queue + [item];
      put := put + [item];
    }

    /** A get that does not wait; `None` is InboxEmpty. */
    method Get() returns (item: Option<Item>)
      requires Valid()
      modifies this
      ensures Valid() && put == old(put)
      ensures old(queue) == [] ==> item.None? && queue == [] && gone == old(gone)
      ensures old(queue) != [] ==>
                item == Some(old(put)[|old(gone)|]) && queue == old(queue)[1..] &&
                gone == old(gone) + [Received(item.value)]
    {
      if queue == [] {
        return None;
      }
      item := Some(queue[0]);
      queue := queue[1..];
      gone := gone + [Received(item.value)];
      assert Items(gone) == Items(old(gone)) + [item.value];
    }

    method Clear()
      requires Valid()
      modifies this
      ensures Valid() && queue == [] && put == old(put) && gone == old(gone) + ClearedAll(old(queue))
    {
      gone := gone + ClearedAll(queue);
      assert Items(gone) == Items(old(gone)) + queue;
      queue := [];
    }
  }

  /** No two names share an inbox. */
  ghost predicate Injective(inboxes: map<string, Inbox>) {
    forall a, b | a in inboxes && b in inboxes && a != b :: inboxes[a] != inboxes[b]
  }

  lemma AddedInbox(inboxes: map<string, Inbox>, name: string, inbox: Inbox)
    requires name !in inboxes && inbox !in inboxes.Values && Injective(inboxes)
    ensures var added := inboxes[name := inbox];
            added.Values == inboxes.Values + {inbox} && Injective(added)
  {
    var added := inboxes[name := inbox];
    assert added[name] == inbox;
    forall other <- inboxes.Values
      ensures other in added.Values
    {
      var n :| n in inboxes && inboxes[n] == other;
      assert added[n] == other;
    }
    assert forall n <- inboxes :: inboxes[n] in inboxes.Values;
  }

  /** `inbox` was emptied, and its history says so. */
  twostate predicate Emptied(inbox: Inbox)
    reads inbox
  {
    inbox.queue == [] && inbox.put == old(inbox.put) && inbox.gone == old(inbox.gone) + ClearedAll(old(inbox.queue))
  }

  method ClearInboxes(inboxes: set<Inbox>)
    requires forall inbox <- inboxes :: inbox.Valid()
    modifies inboxes
    ensures forall inbox <- inboxes :: inbox.Valid() && Emptied(inbox)
  {
    var rest := inboxes;
    while rest != {}
      invariant rest <= inboxes
      invariant forall inbox <- inboxes :: inbox.Valid()
      invariant forall inbox <- rest :: unchanged(inbox)
      invariant forall inbox <- inboxes - rest :: Emptied(inbox)
      decreases |rest|
    {
      var inbox :| inbox in rest;
      inbox.Clear();
      rest := rest - {inbox};
    }
  }

  // ----- where method requests go, over whole histories -----

  /** Everything ever put into the generic inbox and into each named one. */
  datatype Puts = Puts(generic: seq<Item>, named: map<string, seq<Item>>)

  datatype MethodEvent =
    | Ask(name: string)          // an inbox for this method is asked for; the empty name is the generic one
    | Route(name: string, id: nat)

  function StepPuts(p: Puts, event: MethodEvent): Puts {
    match event
    case Ask(name) =>
      if name == "" || name in p.named then p else p.(named := p.named[name := []])
    case Route(name, id) =>
      var request := MethodRequest(name, id);
      if name in p.named then p.(named := p.named[name := p.named[name] + [request]])
      else p.(generic := p.generic + [request])
  }

  function RunPuts(events: seq<MethodEvent>): Puts {
    if events == [] then Puts([], map[]) else StepPuts(RunPuts(events[..|events| - 1]), events[|events| - 1])
  }

  function Count(items: seq<Item>, item: Item): nat {
    if items == [] then 0 else Count(items[..|items| - 1], item) + if items[|items| - 1] == item then 1 else 0
  }

  lemma CountOneMore(items: seq<Item>, more: Item, item: Item)
    ensures Count(items + [more], item) == Count(items, item) + if more == item then 1 else 0
  {
    assert (items + [more])[..|items|] == items;
  }

  function TimesRouted(events: seq<MethodEvent>, name: string, id: nat): nat {
    if events == [] then 0
    else
      TimesRouted(events[..|events| - 1], name, id) + if events[|events| - 1] == Route(name, id) then 1 else 0
  }

  /** The requests for `name` that were routed after an inbox for that name had been asked for. */
  function RoutedAfterAsking(events: seq<MethodEvent>, name: string): seq<Item> {
    if events == [] then []
    else
      var before, last := events[..|events| - 1], events[|events| - 1];
      RoutedAfterAsking(before, name) +
      if last.Route? && last.name == name && Ask(name) in before then [MethodRequest(name, last.id)] else []
  }

  /**
   A named inbox exists if and only if its name was asked for, and it was given exactly the requests for
   that name that came later, in order.
   */
  lemma {:induction false} NamedInboxGetsLaterRequests(events: seq<MethodEvent>, name: string)
    requires name != ""
    ensures var p := RunPuts(events);
            (name in p.named <==> Ask(name) in events) &&
            (name in p.named ==> p.named[name] == RoutedAfterAsking(events, name)) &&
            (name !in p.named ==> RoutedAfterAsking(events, name) == [])
    decreases |events|
  {
    if events != [] {
      var n := |events| - 1;
      NamedInboxGetsLaterRequests(events[..n], name);
      assert events == events[..n] + [events[n]];
    }
  }

  /** What was put into the inbox named `name`, if there is one. */
  function Under(p: Puts, name: string): seq<Item> {
    if name in p.named then p.named[name] else []
  }

  /** One routing appends the request to the inbox of its name or, without one, to the generic inbox, and to no other. */
  lemma RouteAppends(p: Puts, routed: string, id: nat, name: string)
    ensures var q, added := StepPuts(p, Route(routed, id)), MethodRequest(routed, id);
            if routed in p.named then
              q.generic == p.generic &&
              Under(q, name) == if name == routed then Under(p, name) + [added] else Under(p, name)
            else
              q.generic == p.generic + [added] && Under(q, name) == Under(p, name)
  {
  }

  lemma AskAppendsNothing(p: Puts, asked: string, name: string)
    ensures var q := StepPuts(p, Ask(asked));
            q.generic == p.generic && Under(q, name) == Under(p, name)
  {
  }

  /** The requests that a step puts into the generic inbox, and those it puts under `name`. */
  lemma StepAppends(p: Puts, event: MethodEvent, name: string) returns (generic: seq<Item>, named: seq<Item>)
    ensures var q := StepPuts(p, event);
            q.generic == p.generic + generic && Under(q, name) == Under(p, name) + named
    ensures event.Ask? ==> generic == [] && named == []
    ensures event.Route? ==>
              generic + named == if event.name == name || event.name !in p.named
                                 then [MethodRequest(event.name, event.id)] else []
    ensures event.Route? && named != [] ==> event.name == name
  {
    generic, named := [], [];
    match event
    case Ask(asked) =>
      AskAppendsNothing(p, asked, name);
    case Route(routed, id) =>
      RouteAppends(p, routed, id, name);
      if routed !in p.named {
        generic := [MethodRequest(routed, id)];
      } else if routed == name {
        named := [MethodRequest(routed, id)];
      }
  }

  lemma CountAppended(items: seq<Item>, more: seq<Item>, item: Item)
    requires |more| <= 1
    ensures Count(items + more, item) == Count(items, item) + if more == [item] then 1 else 0
  {
    if more == [] {
      assert items + more == items;
    } else {
      CountOneMore(items, more[0], item);
    }
  }

  /** No inbox of another name is ever given a request. */
  lemma {:induction false} NeverMisfiled(events: seq<MethodEvent>, name: string, id: nat, other: string)
    requires other != name
    ensures Count(Under(RunPuts(events), other), MethodRequest(name, id)) == 0
    decreases |events|
  {
    if events != [] {
      var n := |events| - 1;
      NeverMisfiled(events[..n], name, id, other);
      var p := RunPuts(events[..n]);
      var generic, named := StepAppends(p, events[n], other);
      CountAppended(Under(p, other), named, MethodRequest(name, id));
    }
  }

  /**
   Every routed request enters exactly one inbox, the generic one or the one of its name: none is lost and
   none is duplicated.
   */
  lemma {:induction false} RequestsAreConserved(events: seq<MethodEvent>, name: string, id: nat)
    ensures var p, request := RunPuts(events), MethodRequest(name, id);
            Count(p.generic, request) + Count(Under(p, name), request) == TimesRouted(events, name, id)
    decreases |events|
  {
    if events != [] {
      var n := |events| - 1;
      RequestsAreConserved(events[..n], name, id);
      var p, request := RunPuts(events[..n]), MethodRequest(name, id);
      var generic, named := StepAppends(p, events[n], name);
      CountAppended(p.generic, generic, request);
      CountAppended(Under(p, name), named, request);
    }
  }

  /** InboxManager. */
  class Manager {
    const c2d: Inbox
    const generic: Inbox
    const twinPatches: Inbox
    var inputs: map<string, Inbox>
    var named: map<string, Inbox>

    ghost var askedInputs: set<string>    // input names an inbox was asked for
    ghost var askedMethods: set<string>   // method names an inbox was asked for

    ghost function All(): set<Inbox>
      reads this
    {
      {c2d, generic, twinPatches} + inputs.Values + named.Values
    }

    /** All inboxes are different objects, and exactly the names asked for have one. */
    ghost predicate Valid()
      reads this, All()
    {
      c2d != generic && c2d != twinPatches && generic != twinPatches &&
      Injective(inputs) && Injective(named) &&
      inputs.Values !! {c2d, generic, twinPatches} && named.Values !! {c2d, generic, twinPatches} &&
      inputs.Values !! named.Values &&
      inputs.Keys == askedInputs && named.Keys == askedMethods &&
      forall inbox <- All() :: inbox.Valid()
    }

    ghost function MethodPuts(): Puts
      reads this, All()
    {
      Puts(generic.put, map name | name in named :: named[name].put)
    }

    constructor ()
      ensures Valid() && fresh(All()) && askedInputs == {} && askedMethods == {}
      ensures MethodPuts() == RunPuts([])
      ensures forall inbox <- All() :: inbox.put == []
    {
      c2d := new Inbox();
      generic := new Inbox();
      twinPatches := new Inbox();
      inputs, named := map[], map[];
      askedInputs, askedMethods := {}, {};
    }

    method GetInputMessageInbox(name: string) returns (inbox: Inbox)
      requires Valid()
      modifies this`inputs, this`askedInputs
      ensures Valid() && name in inputs && inbox == inputs[name] && askedInputs == old(askedInputs) + {name}
      ensures forall n <- old(inputs) :: n in inputs && inputs[n] == old(inputs)[n]
      ensures name !in old(inputs) ==> fresh(inbox) && inbox.put == []
    {
      if name in inputs {
        inbox := inputs[name];
      } else {
        inbox := new Inbox();
        inputs := inputs[name := inbox];
        AddedInbox(old(inputs), name, inbox);
      }
      askedInputs := askedInputs + {name};
    }

    method AddMethodRequestInbox(name: string) returns (inbox: Inbox)
      requires Valid() && name !in named
      modifies this`named, this`askedMethods
      ensures Valid() && askedMethods == old(askedMethods) + {name}
      ensures fresh(inbox) && inbox.put == [] && named == old(named)[name := inbox]
    {
      inbox := new Inbox();
      named := named[name := inbox];
      askedMethods := askedMethods + {name};
      AddedInbox(old(named), name, inbox);
    }

    /** The empty text stands for an absent name too: either asks for the generic inbox. */
    method GetMethodRequestInbox(name: string) returns (inbox: Inbox)
      requires Valid()
      modifies this`named, this`askedMethods
      ensures Valid() && askedMethods == old(askedMethods) + if name != "" then {name} else {}
      ensures forall n <- old(named) :: n in named && named[n] == old(named)[n]
      ensures if name != "" then name in named && inbox == named[name] else inbox == generic && named == old(named)
      ensures name != "" && name !in old(named) ==> fresh(inbox)
      ensures MethodPuts() == StepPuts(old(MethodPuts()), Ask(name))
    {
      if name == "" {
        inbox := generic;
      } else if name in named {
        inbox := named[name];
        assert askedMethods + {name} == askedMethods;
      } else {
        inbox := AddMethodRequestInbox(name);
        assert MethodPuts().named == old(MethodPuts()).named[name := []];
      }
    }

    /** Every request enters exactly one inbox: the named one if and only if its name was asked for. */
    method RouteMethodRequest(request: Item) returns (target: Inbox)
      requires Valid() && request.MethodRequest?
      modifies All()
      ensures Valid() && All() == old(All()) && target in All()
      ensures if request.name in askedMethods then target == named[request.name] else target == generic
      ensures target.put == old(target.put) + [request] && target.gone == old(target.gone)
      ensures forall inbox <- All() :: inbox != target ==> unchanged(inbox)
      ensures MethodPuts() == StepPuts(old(MethodPuts()), Route(request.name, request.id))
    {
      target := if request.name in named then named[request.name] else generic;
      target.Put(request);
    }

    /** A message for an input is dropped if and only if no inbox was ever asked for it. */
    method RouteInputMessage(name: string, message: Item) returns (routed: bool)
      requires Valid()
      modifies All()
      ensures Valid() && All() == old(All())
      ensures routed <==> name in askedInputs
      ensures routed ==> inputs[name].put == old(inputs[name].put) + [message] &&
                         inputs[name].gone == old(inputs[name].gone)
      ensures forall inbox <- All() :: (routed ==> inbox != inputs[name]) ==> unchanged(inbox)
    {
      if name !in inputs {
        return false;
      }
      inputs[name].Put(message);
      return true;
    }

    method RouteC2dMessage(message: Item)
      requires Valid()
      modifies All()
      ensures Valid() && All() == old(All())
      ensures c2d.put == old(c2d.put) + [message] && c2d.gone == old(c2d.gone)
      ensures forall inbox <- All() :: inbox != c2d ==> unchanged(inbox)
    {
      c2d.Put(message);
    }

    method RouteTwinPatch(patch: Item)
      requires Valid()
      modifies All()
      ensures Valid() && All() == old(All())
      ensures twinPatches.put == old(twinPatches.put) + [patch] && twinPatches.gone == old(twinPatches.gone)
      ensures forall inbox <- All() :: inbox != twinPatches ==> unchanged(inbox)
    {
      twinPatches.Put(patch);
    }

    ghost function MethodInboxes(): set<Inbox>
      reads this
    {
      {generic} + named.Values
    }

    /** All method inboxes are emptied, whatever they are called, and nothing else is touched. */
    method ClearAllMethodRequests()
      requires Valid()
      modifies MethodInboxes()
      ensures Valid() && All() == old(All()) && MethodInboxes() == old(MethodInboxes())
      ensures forall inbox <- MethodInboxes() :: Emptied(inbox)
    {
      generic.Clear();
      ClearInboxes(named.Values);
    }
  }
}
