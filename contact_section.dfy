/** The contact section (src/components/sections/contact-section.tsx): the
    ripple list of a contact card with its id counter, the click handler, the
    new-tab rule for card links, and the `copied` flag of the email card. */
module ContactSection {
  import opened Wrappers
  import opened Text
  import opened Content

  /** `RIPPLE_MAIN_CIRCLE_SIZE`. */
  const RippleMainCircleSize: int := 210
  /** The removal timer's delay: `RIPPLE_DURATION_MS + RIPPLE_DELAY_MS`. */
  const RippleCleanupMs: int := 800 + 150
  /** The delay before `copied` is reset. */
  const CopiedResetMs: int := 1000

  /** `RippleItem`; coordinates are whole pixels here. */
  datatype Ripple = Ripple(id: nat, x: int, y: int, size: int)

  /** Ids strictly increase along the list, so they are also distinct. */
  predicate Increasing(rs: seq<Ripple>) {
    forall i, j :: 0 <= i < j < |rs| ==> rs[i].id < rs[j].id
  }

  /** `ids` lists the ids of `rs`, in order. */
  predicate IdsOf(ids: seq<nat>, rs: seq<Ripple>) {
    |ids| == |rs| && forall i :: 0 <= i < |rs| ==> ids[i] == rs[i].id
  }

  /** `prev.filter(r => r.id !== id)`: the ripples whose id is not `id`, in
      their order. */
  function RemoveById(rs: seq<Ripple>, id: nat): (kept: seq<Ripple>)
    ensures |kept| <= |rs|
  {
    if |rs| == 0 then []
    else if rs[0].id != id then [rs[0]] + RemoveById(rs[1..], id)
    else RemoveById(rs[1..], id)
  }

  /** The kept ripples are exactly those whose id differs. */
  lemma {:induction false} RemoveMembers(rs: seq<Ripple>, id: nat, r: Ripple)
    ensures r in RemoveById(rs, id) <==> r in rs && r.id != id
  {
    if |rs| > 0 {
      RemoveMembers(rs[1..], id, r);
      assert rs == [rs[0]] + rs[1..];
    }
  }

  /** Removing an id no ripple has changes nothing. */
  lemma {:induction false} RemoveAbsent(rs: seq<Ripple>, id: nat)
    requires forall i :: 0 <= i < |rs| ==> rs[i].id != id
    ensures RemoveById(rs, id) == rs
  {
    if |rs| > 0 {
      RemoveAbsent(rs[1..], id);
    }
  }

  /** With increasing ids, removing the id of the first ripple drops exactly
      that ripple: the list works as a queue. */
  lemma RemoveOldest(rs: seq<Ripple>)
    requires |rs| > 0 && Increasing(rs)
    ensures RemoveById(rs, rs[0].id) == rs[1..]
  {
    forall i | 0 <= i < |rs[1..]|
      ensures rs[1..][i].id != rs[0].id
    {
      assert rs[0].id < rs[i + 1].id;
    }
    RemoveAbsent(rs[1..], rs[0].id);
  }

  /** Dropping the first ripple keeps the ids increasing. */
  lemma IncreasingTail(rs: seq<Ripple>)
    requires |rs| > 0 && Increasing(rs)
    ensures Increasing(rs[1..])
  {
    forall i, j | 0 <= i < j < |rs[1..]|
      ensures rs[1..][i].id < rs[1..][j].id
    {
      assert rs[i + 1].id < rs[j + 1].id;
    }
  }

  /** Removal keeps the other ripples in their order, and with distinct ids
      it drops exactly one ripple when the id is present. */
  lemma {:induction false} RemoveKeepsOrder(rs: seq<Ripple>, id: nat, k: nat)
    requires Increasing(rs) && k < |rs| && rs[k].id == id
    ensures RemoveById(rs, id) == rs[..k] + rs[k + 1..]
  {
    if k == 0 {
      RemoveOldest(rs);
    } else {
      var tail := rs[1..];
      IncreasingTail(rs);
      assert rs[0].id < rs[k].id;
      RemoveKeepsOrder(tail, id, k - 1);
      calc {
        RemoveById(rs, id);
        [rs[0]] + RemoveById(tail, id);
        [rs[0]] + (tail[..k - 1] + tail[k..]);
        { assert [rs[0]] + tail[..k - 1] == rs[..k]; assert tail[k..] == rs[k + 1..]; }
        rs[..k] + rs[k + 1..];
      }
    }
  }

  /** Appending a ripple with an id above all existing ones keeps the ids
      increasing. */
  lemma AppendIncreasing(rs: seq<Ripple>, r: Ripple)
    requires Increasing(rs) && forall i :: 0 <= i < |rs| ==> rs[i].id < r.id
    ensures Increasing(rs + [r])
  {
  }

  /** A contact card's ripple state: `ripples`, the `rippleIdRef` counter,
      and the removal timers not yet fired, oldest first. All removal timers
      have the same delay, so they fire in the order they were set. */
  class ContactCard {
    const isPrimary: bool
    var ripples: seq<Ripple>
    var nextRippleId: nat
    var pendingRemovals: seq<nat>

    /** Ids increase, stay below the counter and each has its removal timer
        pending; every ripple has the main circle size. */
    predicate Valid()
      reads this
    {
      && Increasing(ripples)
      && (forall i :: 0 <= i < |ripples| ==> ripples[i].id < nextRippleId)
      && (forall i :: 0 <= i < |ripples| ==> ripples[i].size == RippleMainCircleSize)
      && IdsOf(pendingRemovals, ripples)
    }

    constructor(isPrimary: bool)
      ensures this.isPrimary == isPrimary && Valid()
      ensures ripples == [] && nextRippleId == 0 && pendingRemovals == []
    {
      this.isPrimary := isPrimary;
      ripples := [];
      nextRippleId := 0;
      pendingRemovals := [];
    }

    /** `createRipple`: on the primary card only, add a ripple at the click,
        relative to the card's corner, with the next id, and set its removal
        timer. The new ripple and the removal timer's delay are the results. */
    method CreateRipple(clientX: int, clientY: int, rectLeft: int, rectTop: int)
      returns (created: Option<Ripple>, removalDelay: Option<int>)
      requires Valid()
      modifies this
      ensures Valid()
      ensures removalDelay.Some? <==> isPrimary
      ensures removalDelay.Some? ==> removalDelay.value == RippleCleanupMs
      ensures !isPrimary ==>
        created.None? && ripples == old(ripples) &&
        nextRippleId == old(nextRippleId) && pendingRemovals == old(pendingRemovals)
      ensures isPrimary ==>
        && created == Some(Ripple(old(nextRippleId), clientX - rectLeft, clientY - rectTop, RippleMainCircleSize))
        && ripples == old(ripples) + [created.value]
        && nextRippleId == old(nextRippleId) + 1
        && pendingRemovals == old(pendingRemovals) + [created.value.id]
    {
      if !isPrimary {
        return None, None;
      }
      var x := clientX - rectLeft;
      var y := clientY - rectTop;
      var size := RippleMainCircleSize;
      var newRipple := Ripple(nextRippleId, x, y, size);
      nextRippleId := nextRippleId + 1;
      AppendIncreasing(ripples, newRipple);
      ripples := ripples + [newRipple];
      pendingRemovals := pendingRemovals + [newRipple.id];
      created := Some(newRipple);
      removalDelay := Some(RippleCleanupMs);
    }

    /** The oldest removal timer fires and filters its ripple out, which is
        the oldest ripple. */
    method RemovalTimerFires()
      requires Valid() && |pendingRemovals| > 0
      modifies this
      ensures Valid()
      ensures ripples == RemoveById(old(ripples), old(pendingRemovals)[0])
      ensures ripples == old(ripples)[1..]
      ensures nextRippleId == old(nextRippleId) && pendingRemovals == old(pendingRemovals)[1..]
    {
      var id := pendingRemovals[0];
      RemoveOldest(ripples);
      ripples := RemoveById(ripples, id);
      pendingRemovals := pendingRemovals[1..];
    }

    /** `handleClick`: `createRipple` first, then the optional `onClick`, which
        on the email card is the section's `handleCopyEmail`. */
    method HandleClick(clientX: int, clientY: int, rectLeft: int, rectTop: int,
                       onClick: Option<Section>, email: string)
      returns (followLink: bool)
      requires Valid()
      requires onClick.Some? ==> onClick.value.Valid()
      modifies this, if onClick.Some? then {onClick.value} else {}
      ensures Valid()
      ensures isPrimary ==> ripples == old(ripples) + [Ripple(old(nextRippleId), clientX - rectLeft, clientY - rectTop, RippleMainCircleSize)]
      ensures !isPrimary ==> ripples == old(ripples)
      ensures nextRippleId == old(nextRippleId) + (if isPrimary then 1 else 0)
      ensures pendingRemovals == old(pendingRemovals) + (if isPrimary then [old(nextRippleId)] else [])
      ensures onClick.None? ==> followLink
      ensures onClick.Some? ==>
        !followLink && onClick.value.Valid() && onClick.value.copied &&
        onClick.value.clipboard == Some(email) && onClick.value.pendingResets == old(onClick.value.pendingResets) + 1
    {
      var _, _ := CreateRipple(clientX, clientY, rectLeft, rectTop);
      followLink := true;
      if onClick.Some? {
        var resetDelay;
        followLink, resetDelay := onClick.value.HandleCopyEmail(email);
      }
    }
  }

  /** The section's `copied` flag, what was last written to the clipboard, and
      the reset timers not yet fired. */
  class Section {
    var copied: bool
    var clipboard: Option<string>
    var pendingResets: nat

    /** `copied` is only set while a reset is on its way. */
    predicate Valid()
      reads this
    {
      copied ==> pendingResets > 0
    }

    constructor()
      ensures !copied && clipboard.None? && pendingResets == 0 && Valid()
    {
      copied := false;
      clipboard := None;
      pendingResets := 0;
    }

    /** `handleCopyEmail`: keep the link from being followed, copy the address,
        show the check mark and set its reset timer, whose delay is returned. */
    method HandleCopyEmail(email: string) returns (followLink: bool, resetDelay: int)
      requires Valid()
      modifies this
      ensures Valid() && !followLink && resetDelay == CopiedResetMs
      ensures copied && clipboard == Some(email) && pendingResets == old(pendingResets) + 1
    {
      followLink := false;
      resetDelay := CopiedResetMs;
      clipboard := Some(email);
      copied := true;
      pendingResets := pendingResets + 1;
    }

    /** A reset timer fires: `copied` goes back to false, even if a later
        click has set another timer. */
    method ResetTimerFires()
      requires Valid() && pendingResets > 0
      modifies this
      ensures Valid() && !copied
      ensures clipboard == old(clipboard) && pendingResets == old(pendingResets) - 1
    {
      copied := false;
      pendingResets := pendingResets - 1;
    }
  }

  // Card links.

  /** `target`: `_blank` for links starting with `http`, none otherwise. */
  function Target(href: string): (t: Option<string>)
    ensures t.Some? <==> StartsWith(href, "http")
    ensures t.Some? ==> t.value == "_blank"
  {
    if StartsWith(href, "http") then Some("_blank") else None
  }

  /** `rel`: `noopener noreferrer` exactly when the link opens a new tab. */
  function Rel(href: string): (r: Option<string>)
    ensures r.Some? <==> Target(href).Some?
    ensures r.Some? ==> r.value == "noopener noreferrer"
  {
    if StartsWith(href, "http") then Some("noopener noreferrer") else None
  }

  /** Over the contact hub's four cards: the email card never opens a new tab,
      the X and Telegram cards always do, and the Substack card does unless
      the configured address is set and does not start with `http`. */
  lemma ChannelTargets(env: Env)
    ensures Target(ContactChannelsOf(env).email.href).None?
    ensures Target(ContactChannelsOf(env).x.href).Some?
    ensures Target(ContactChannelsOf(env).telegram.href).Some?
    ensures Target(ContactChannelsOf(env).substack.href).Some? <==>
      EnvValue(env.substackUrl) == "" || StartsWith(EnvValue(env.substackUrl), "http")
  {
    var c := ContactChannelsOf(env);
    if EnvValue(env.userEmail) != "" {
      assert c.email.href[0] == 'm';
    }
    var x := EnvValue(env.xHandle);
    if x != "" {
      assert XComposeUrl[0] == 'h' && XComposeUrl[1] == 't' && XComposeUrl[2] == 't' && XComposeUrl[3] == 'p';
      assert (XComposeUrl + x)[..4] == XComposeUrl[..4];
    } else {
      assert "https://x.com"[..4] == "http";
    }
    var t := EnvValue(env.telegramHandle);
    if t != "" {
      assert TelegramUrl[..4] == "http";
      assert (TelegramUrl + "/" + t)[..4] == TelegramUrl[..4];
    } else {
      assert TelegramUrl[..4] == "http";
    }
  }
}
