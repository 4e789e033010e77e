/** The bystander battle events: handlers that an effect owner (often not the
    attacker) runs against the resolution context of someone else's action.
    Each handler is a pure effect on a `ContextState`, stated by its
    contract, and an `Apply` method on the `BattleContext` proved to perform
    exactly that effect. */
module BystanderBattleEvent {

  import opened Wrappers
  import opened Geometry
  import opened Battle

  /** Traps and item uses can be neither snatched nor redirected. */
  predicate Redirectable(t: ActionType) { t != Trap && t != Item }

  /** Element 0 in a handler's configuration matches every move element. */
  predicate ElementMatches(element: int, moveElement: int) { element == 0 || moveElement == element }

  /** C#'s integer division by two, which truncates toward zero. */
  function HalfTruncated(n: int): (r: int)
    ensures n >= 0 ==> 0 <= r && 2 * r <= n < 2 * r + 2
    ensures n < 0 ==> r <= 0 && 2 * r - 2 < n <= 2 * r
  {
    if n >= 0 then n / 2 else -((-n) / 2)
  }

  /** The factor `DampEvent` applies: divide by `Div` when it is positive,
      otherwise multiply by `Div` itself. */
  function DampFactor(div: int): (m: Mult)
    ensures div > 0 ==> m.num == 1 && m.den == div
    ensures div <= 0 ==> m.num == div && m.den == 1
  {
    if div > 0 then Mult(1, div) else Mult(div, 1)
  }

  /** The explosion after it has been cancelled. */
  function Cancelled(s: ContextState): ContextState { s.(range := 0, visualsCleared := true) }

  // ---------------------------------------------------------------------
  // SupportAbilityEvent

  function SupportAbility(supportAbility: int, s: ContextState, w: World): (r: ContextState)
    // a magical move whose user has the intrinsic gets the factor 4/3 ...
    ensures s.data.category == Magical && supportAbility in w.info(s.user).intrinsics
            ==> r == s.(dmgMult := s.dmgMult + [Mult(4, 3)])
    // ... and nothing else is affected
    ensures !(s.data.category == Magical && supportAbility in w.info(s.user).intrinsics) ==> r == s
  {
    if s.data.category == Magical && supportAbility in w.info(s.user).intrinsics
    then s.(dmgMult := s.dmgMult + [Mult(4, 3)])
    else s
  }

  method ApplySupportAbility(supportAbility: int, ctx: BattleContext, w: World)
    modifies ctx
    ensures ctx.State() == SupportAbility(supportAbility, old(ctx.State()), w)
  {
    if ctx.data.category == Magical && supportAbility in w.info(ctx.user).intrinsics {
      ctx.AddDmgMult(4, 3);
    }
  }

  // ---------------------------------------------------------------------
  // SnatchEvent

  predicate SnatchFires(s: ContextState)
  {
    Redirected !in s.tags && Redirectable(s.actionType) && s.data.category == Status
    && s.target == Some(s.user)
  }

  function Snatch(owner: CharId, s: ContextState): (r: ContextState)
    // an already redirected context is left alone
    ensures Redirected in s.tags ==> r == s
    // it changes the context exactly for a status move its user aims at
    // itself, outside traps and item uses
    ensures r != s <==> SnatchFires(s)
    // and then the owner becomes the target and the context is redirected
    ensures r != s ==> r == s.(target := Some(owner), tags := s.tags + {Redirected})
  {
    if SnatchFires(s) then s.(target := Some(owner), tags := s.tags + {Redirected}) else s
  }

  method ApplySnatch(owner: CharId, ctx: BattleContext)
    modifies ctx
    ensures ctx.State() == Snatch(owner, old(ctx.State()))
  {
    if Redirected in ctx.contextStates { return; }
    if ctx.actionType == Trap || ctx.actionType == Item { return; }
    // must be a status move
    if ctx.data.category != Status { return; }
    // the attacker must be the target
    if Some(ctx.user) != ctx.target { return; }
    ctx.target := Some(owner);
    ctx.SetTag(Redirected);
  }

  // ---------------------------------------------------------------------
  // AllyDifferentExplosionEvent

  /** The base events copied into the hit list, all at priority 0. */
  function AtPriorityZero(es: seq<BattleEvent>): (r: seq<PriorityEntry>)
  {
    seq(|es|, i requires 0 <= i < |es| => PriorityEntry(0, Clone(es[i])))
  }

  predicate HitsAlly(s: ContextState, w: World)
  {
    w.charAt(s.explosionTile).Some? && w.matchup(s.user, w.charAt(s.explosionTile).value) == {Friend}
  }

  function AllyDifferentExplosion(baseEvents: seq<BattleEvent>, s: ContextState, w: World): (r: ContextState)
    // with no character at the tile, or one that is not a friend of the user, nothing changes
    ensures !HitsAlly(s, w) ==> r == s
    // on a friend: the hit list becomes the base events in order, at priority 0 ...
    ensures HitsAlly(s, w) ==>
      |r.data.onHits| == |baseEvents|
      && (forall i :: 0 <= i < |baseEvents| ==> r.data.onHits[i] == PriorityEntry(0, baseEvents[i]))
    // ... the tile hits are dropped, the base power marker is removed, and nothing else changes
    ensures HitsAlly(s, w) ==>
      r == s.(data := s.data.(onHits := r.data.onHits, onHitTiles := [],
                              skillStates := s.data.skillStates - {BasePowerState}))
  {
    if HitsAlly(s, w) then
      s.(data := s.data.(onHits := AtPriorityZero(baseEvents), onHitTiles := [],
                         skillStates := s.data.skillStates - {BasePowerState}))
    else s
  }

  method ApplyAllyDifferentExplosion(baseEvents: seq<BattleEvent>, ctx: BattleContext, w: World)
    modifies ctx
    ensures ctx.State() == AllyDifferentExplosion(baseEvents, old(ctx.State()), w)
  {
    var targetChar := w.charAt(ctx.explosionTile);
    if targetChar.None? { return; }
    if w.matchup(ctx.user, targetChar.value) == {Friend} {
      // remove all hit effects
      ctx.data := ctx.data.(onHits := [], onHitTiles := []);
      if BasePowerState in ctx.data.skillStates {
        ctx.data := ctx.data.(skillStates := ctx.data.skillStates - {BasePowerState});
      }
      ghost var cleared := ctx.data;
      // add the alternative effects
      var i := 0;
      while i < |baseEvents|
        invariant 0 <= i <= |baseEvents|
        invariant ctx.data == cleared.(onHits := AtPriorityZero(baseEvents[..i]))
        invariant ctx.State() == old(ctx.State()).(data := ctx.data)
      {
        assert AtPriorityZero(baseEvents[..i + 1]) == AtPriorityZero(baseEvents[..i]) + [PriorityEntry(0, Clone(baseEvents[i]))];
        ctx.data := ctx.data.(onHits := ctx.data.onHits + [PriorityEntry(0, Clone(baseEvents[i]))]);
        i := i + 1;
      }
      assert baseEvents[..i] == baseEvents;
    }
  }

  // ---------------------------------------------------------------------
  // DampEvent

  function Damp(div: int, s: ContextState): (r: ContextState)
    // an explosion that is already cancelled is left alone
    ensures s.range == 0 ==> r == s
    // otherwise it is cancelled, its visuals are reset and the Damp factor is recorded
    ensures s.range != 0 ==> r == Cancelled(s).(dmgMult := s.dmgMult + [DampFactor(div)])
    ensures r.range == 0
  {
    if s.range == 0 then s else Cancelled(s).(dmgMult := s.dmgMult + [DampFactor(div)])
  }

  method ApplyDamp(div: int, ctx: BattleContext)
    modifies ctx
    ensures ctx.State() == Damp(div, old(ctx.State()))
  {
    // only block explosions
    if ctx.range == 0 { return; }
    ctx.CancelExplosion();
    if div > 0 {
      ctx.AddDmgMult(1, div);
    } else {
      ctx.AddDmgMult(div, 1);
    }
  }

  // ---------------------------------------------------------------------
  // DampItemEvent

  predicate DampsThrow(s: ContextState, w: World)
  {
    s.actionType == Throw && !w.itemInfo(s.item).recruit
  }

  function DampItem(s: ContextState, w: World): (r: ContextState)
    // a thrown item that is not a recruit item loses its explosion ...
    ensures DampsThrow(s, w) ==> r == Cancelled(s)
    // ... and anything else passes untouched
    ensures !DampsThrow(s, w) ==> r == s
  {
    if DampsThrow(s, w) then Cancelled(s) else s
  }

  method ApplyDampItem(ctx: BattleContext, w: World)
    modifies ctx
    ensures ctx.State() == DampItem(old(ctx.State()), w)
  {
    if ctx.actionType == Throw {
      var entry := w.itemInfo(ctx.item);
      if !entry.recruit {
        ctx.CancelExplosion();
      }
    }
  }

  // ---------------------------------------------------------------------
  // CatchItemSplashEvent

  /** A linear throw that does not stop at its first hit pierces. */
  predicate Pierces(h: HitboxAction) { h.shape.LinearAction? && !h.shape.stopAtHit }

  predicate Catches(s: ContextState, w: World)
  {
    && s.actionType == Throw
    && !Pierces(s.hitboxAction)
    && w.charAt(s.explosionTile).Some?
    && var catcher := w.info(w.charAt(s.explosionTile).value);
    && var entry := w.itemInfo(s.item);
    && catcher.equippedItemId <= -1
    && !entry.recruit
    && !(catcher.monsterTeam && (entry.edible || entry.ammo))
  }

  function CatchItemSplash(s: ContextState, w: World): (r: ContextState)
    // a non-piercing throw at an empty-handed character of a non-recruit item,
    // and, against a wild team, of an item neither edible nor ammo, is caught ...
    ensures Catches(s, w) ==> r == Cancelled(s)
    // ... every other case leaves the context alone
    ensures !Catches(s, w) ==> r == s
  {
    if Catches(s, w) then Cancelled(s) else s
  }

  method ApplyCatchItemSplash(ctx: BattleContext, w: World)
    modifies ctx
    ensures ctx.State() == CatchItemSplash(old(ctx.State()), w)
  {
    if ctx.actionType == Throw {
      // a piercing throw cannot be caught
      if ctx.hitboxAction.shape.LinearAction? && !ctx.hitboxAction.shape.stopAtHit { return; }
      var targetChar := w.charAt(ctx.explosionTile);
      if targetChar.Some? {
        // a character holding an item cannot catch
        if w.info(targetChar.value).equippedItemId > -1 { return; }
        var entry := w.itemInfo(ctx.item);
        // a recruit item is never caught
        if !entry.recruit {
          // a wild team does not catch food or ammo
          if w.info(targetChar.value).monsterTeam {
            if entry.edible || entry.ammo { return; }
          }
          ctx.CancelExplosion();
        }
      }
    }
  }

  // ---------------------------------------------------------------------
  // IsolateElementEvent

  predicate Isolates(element: int, owner: CharId, s: ContextState, w: World)
  {
    ElementMatches(element, s.data.element) && w.charAt(s.explosionTile) == Some(owner)
  }

  function IsolateElement(element: int, owner: CharId, s: ContextState, w: World): (r: ContextState)
    // a matching move exploding on the owner's own tile loses its range, and only that
    ensures Isolates(element, owner, s, w) ==> r == s.(range := 0)
    ensures !Isolates(element, owner, s, w) ==> r == s
  {
    if Isolates(element, owner, s, w) then s.(range := 0) else s
  }

  method ApplyIsolateElement(element: int, owner: CharId, ctx: BattleContext, w: World)
    modifies ctx
    ensures ctx.State() == IsolateElement(element, owner, old(ctx.State()), w)
  {
    if element != 0 && ctx.data.element != element { return; }
    if w.charAt(ctx.explosionTile) != Some(owner) { return; }
    ctx.range := 0;
  }

  // ---------------------------------------------------------------------
  // DrawAttackEvent

  predicate Draws(drawFrom: Alignment, element: int, owner: CharId, s: ContextState, w: World)
  {
    && Redirected !in s.tags
    && Redirectable(s.actionType)
    && ElementMatches(element, s.data.element)
    && w.charAt(s.explosionTile).Some?
    // the attack has to be able to hit foes
    && Foe in s.hitboxAction.targetAlignments
    // the character at the tile has to stand in the configured relation to the owner
    && w.matchup(owner, w.charAt(s.explosionTile).value) * drawFrom != {}
  }

  function DrawAttack(drawFrom: Alignment, element: int, owner: CharId, s: ContextState, w: World): (r: ContextState)
    ensures Redirected in s.tags ==> r == s
    ensures r != s <==> Draws(drawFrom, element, owner, s, w)
    // drawing moves the explosion onto the owner and shrinks it to that tile
    ensures r != s ==> r == s.(explosionTile := w.info(owner).loc, range := 0, tags := s.tags + {Redirected})
  {
    if Draws(drawFrom, element, owner, s, w)
    then s.(explosionTile := w.info(owner).loc, range := 0, tags := s.tags + {Redirected})
    else s
  }

  method ApplyDrawAttack(drawFrom: Alignment, element: int, owner: CharId, ctx: BattleContext, w: World)
    modifies ctx
    ensures ctx.State() == DrawAttack(drawFrom, element, owner, old(ctx.State()), w)
  {
    if Redirected in ctx.contextStates { return; }
    if ctx.actionType == Trap || ctx.actionType == Item { return; }
    if element != 0 && ctx.data.element != element { return; }
    var targetChar := w.charAt(ctx.explosionTile);
    if targetChar.None? { return; }
    if Foe !in ctx.hitboxAction.targetAlignments { return; }
    if w.matchup(owner, targetChar.value) * drawFrom == {} { return; }
    ctx.explosionTile := w.info(owner).loc;
    ctx.range := 0;
    ctx.SetTag(Redirected);
  }

  // ---------------------------------------------------------------------
  // PassAttackEvent

  /** A character the owner can pass the attack to: alive, neither the owner
      nor the attacker, and next to the owner. */
  predicate PassCandidate(c: CharId, owner: CharId, user: CharId, w: World)
  {
    !w.info(c).dead && c != owner && c != user && Dist8(w.info(c).loc.Minus(w.info(owner).loc)) <= 1
  }

  /** A pass candidate is a live bystander on one of the eight tiles around
      the owner, or on the owner's own tile. */
  lemma PassCandidateIsNeighbour(c: CharId, owner: CharId, user: CharId, w: World)
    ensures PassCandidate(c, owner, user, w) <==>
      && !w.info(c).dead && c != owner && c != user
      && -1 <= w.info(c).loc.x - w.info(owner).loc.x <= 1
      && -1 <= w.info(c).loc.y - w.info(owner).loc.y <= 1
  {
    Dist8AtMostOne(w.info(c).loc, w.info(owner).loc);
  }

  /** The position of the first candidate in iteration order, or |cs|. */
  function FirstPassIndex(cs: seq<CharId>, owner: CharId, user: CharId, w: World): (k: nat)
    ensures k <= |cs|
    ensures k < |cs| ==> PassCandidate(cs[k], owner, user, w)
    ensures forall j :: 0 <= j < k ==> !PassCandidate(cs[j], owner, user, w)
    decreases |cs|
  {
    if cs == [] then 0
    else if PassCandidate(cs[0], owner, user, w) then 0
    else 1 + FirstPassIndex(cs[1..], owner, user, w)
  }

  /** The first candidate in iteration order, if there is one. */
  function FirstPassTarget(cs: seq<CharId>, owner: CharId, user: CharId, w: World): (r: Option<CharId>)
    ensures r.None? <==> forall j :: 0 <= j < |cs| ==> !PassCandidate(cs[j], owner, user, w)
    ensures r.Some? ==> exists k :: 0 <= k < |cs| && cs[k] == r.value && PassCandidate(r.value, owner, user, w)
                                    && forall j :: 0 <= j < k ==> !PassCandidate(cs[j], owner, user, w)
  {
    var k := FirstPassIndex(cs, owner, user, w);
    if k < |cs| then Some(cs[k]) else Option.None
  }

  predicate PassGuards(owner: CharId, s: ContextState, w: World)
  {
    && Redirected !in s.tags
    && Redirectable(s.actionType)
    // it has to be an attacking move
    && (s.data.category == Physical || s.data.category == Magical)
    && w.charAt(s.explosionTile) == Some(owner)
  }

  function PassAttack(owner: CharId, s: ContextState, w: World): (r: ContextState)
    ensures Redirected in s.tags ==> r == s
    ensures r != s <==> PassGuards(owner, s, w) && FirstPassTarget(w.characters, owner, s.user, w).Some?
    // the explosion moves to the first candidate's tile
    ensures r != s ==>
      r == s.(explosionTile := w.info(FirstPassTarget(w.characters, owner, s.user, w).value).loc,
              tags := s.tags + {Redirected})
  {
    if PassGuards(owner, s, w) then
      var t := FirstPassTarget(w.characters, owner, s.user, w);
      if t.Some? then s.(explosionTile := w.info(t.value).loc, tags := s.tags + {Redirected}) else s
    else s
  }

  method ApplyPassAttack(owner: CharId, ctx: BattleContext, w: World)
    modifies ctx
    ensures ctx.State() == PassAttack(owner, old(ctx.State()), w)
  {
    if Redirected in ctx.contextStates { return; }
    if ctx.actionType == Trap || ctx.actionType == Item { return; }
    // it has to be an attacking move
    if ctx.data.category != Physical && ctx.data.category != Magical { return; }
    if w.charAt(ctx.explosionTile) != Some(owner) { return; }
    var i := 0;
    while i < |w.characters|
      invariant 0 <= i <= |w.characters|
      invariant i <= FirstPassIndex(w.characters, owner, ctx.user, w)
      invariant ctx.State() == old(ctx.State())
    {
      var newTarget := w.characters[i];
      if !w.info(newTarget).dead && newTarget != owner && newTarget != ctx.user
         && Dist8(w.info(newTarget).loc.Minus(w.info(owner).loc)) <= 1
      {
        ctx.explosionTile := w.info(newTarget).loc;
        ctx.SetTag(Redirected);
        return;
      }
      i := i + 1;
    }
  }

  // ---------------------------------------------------------------------
  // CoverAttackEvent

  predicate Covers(owner: CharId, s: ContextState, w: World)
  {
    && Redirected !in s.tags
    && Redirectable(s.actionType)
    && w.charAt(s.explosionTile).Some?
    && var covered := w.charAt(s.explosionTile).value;
    // at half health or below, with C#'s truncating division
    && w.info(covered).hp <= HalfTruncated(w.info(covered).maxHp)
    // and exactly a friend of the owner
    && w.matchup(owner, covered) == {Friend}
  }

  function CoverAttack(owner: CharId, s: ContextState, w: World): (r: ContextState)
    ensures Redirected in s.tags ==> r == s
    ensures r != s <==> Covers(owner, s, w)
    // covering moves the explosion to the owner and keeps its range
    ensures r != s ==> r == s.(explosionTile := w.info(owner).loc, tags := s.tags + {Redirected})
  {
    if Covers(owner, s, w) then s.(explosionTile := w.info(owner).loc, tags := s.tags + {Redirected}) else s
  }

  method ApplyCoverAttack(owner: CharId, ctx: BattleContext, w: World)
    modifies ctx
    ensures ctx.State() == CoverAttack(owner, old(ctx.State()), w)
  {
    if Redirected in ctx.contextStates { return; }
    if ctx.actionType == Trap || ctx.actionType == Item { return; }
    var targetChar := w.charAt(ctx.explosionTile);
    if targetChar.None? { return; }
    if w.info(targetChar.value).hp > HalfTruncated(w.info(targetChar.value).maxHp) { return; }
    // the owner has to be a friend of the covered character
    if w.matchup(owner, targetChar.value) != {Friend} { return; }
    ctx.explosionTile := w.info(owner).loc;
    ctx.SetTag(Redirected);
  }

  // ---------------------------------------------------------------------
  // The handlers together

  /** The events of this file that act on the context through `Apply`
      (`FollowUpEvent` instead builds a nested context). */
  predicate IsContextHandler(ev: BattleEvent) { !ev.FollowUpEvent? && !ev.OtherEvent? }

  /** The handlers that redirect an action. */
  predicate IsRedirector(ev: BattleEvent)
  {
    ev.SnatchEvent? || ev.DrawAttackEvent? || ev.PassAttackEvent? || ev.CoverAttackEvent?
  }

  /** One event of a move's handler list, with the character that owns it. */
  datatype Handler = Handler(ev: BattleEvent, owner: CharId)

  predicate AllContextHandlers(hs: seq<Handler>)
  {
    forall i :: 0 <= i < |hs| ==> IsContextHandler(hs[i].ev)
  }

  /** `Apply` dispatched on the event. */
  function Effect(h: Handler, s: ContextState, w: World): (r: ContextState)
    requires IsContextHandler(h.ev)
    // tags are only ever added, and the only tag added is Redirected
    ensures s.tags <= r.tags && r.tags <= s.tags + {Redirected}
    // a redirecting handler is a no-op once the context is redirected ...
    ensures IsRedirector(h.ev) && Redirected in s.tags ==> r == s
    // ... and whenever it does act, it marks the context redirected
    ensures IsRedirector(h.ev) && r != s ==> Redirected !in s.tags && Redirected in r.tags
    // the other handlers never retarget or move the explosion
    ensures !IsRedirector(h.ev) ==> r.tags == s.tags && r.target == s.target && r.explosionTile == s.explosionTile
    // a cancelled explosion stays cancelled
    ensures s.range == 0 ==> r.range == 0
    // the damage multiplier gets 4/3 from SupportAbility, the Damp factor from Damp, and nothing else
    ensures || r.dmgMult == s.dmgMult
            || (h.ev.SupportAbilityEvent? && r.dmgMult == s.dmgMult + [Mult(4, 3)])
            || (h.ev.DampEvent? && r.dmgMult == s.dmgMult + [DampFactor(h.ev.div)])
  {
    match h.ev
    case SupportAbilityEvent(a) => SupportAbility(a, s, w)
    case SnatchEvent(_, _) => Snatch(h.owner, s)
    case AllyDifferentExplosionEvent(bs) => AllyDifferentExplosion(bs, s, w)
    case DampEvent(d, _) => Damp(d, s)
    case DampItemEvent => DampItem(s, w)
    case CatchItemSplashEvent => CatchItemSplash(s, w)
    case IsolateElementEvent(el) => IsolateElement(el, h.owner, s, w)
    case DrawAttackEvent(df, el, _) => DrawAttack(df, el, h.owner, s, w)
    case PassAttackEvent => PassAttack(h.owner, s, w)
    case CoverAttackEvent => CoverAttack(h.owner, s, w)
  }

  method Apply(h: Handler, ctx: BattleContext, w: World)
    requires IsContextHandler(h.ev)
    modifies ctx
    ensures ctx.State() == Effect(h, old(ctx.State()), w)
  {
    match h.ev
    case SupportAbilityEvent(a) => ApplySupportAbility(a, ctx, w);
    case SnatchEvent(_, _) => ApplySnatch(h.owner, ctx);
    case AllyDifferentExplosionEvent(bs) => ApplyAllyDifferentExplosion(bs, ctx, w);
    case DampEvent(d, _) => ApplyDamp(d, ctx);
    case DampItemEvent => ApplyDampItem(ctx, w);
    case CatchItemSplashEvent => ApplyCatchItemSplash(ctx, w);
    case IsolateElementEvent(el) => ApplyIsolateElement(el, h.owner, ctx, w);
    case DrawAttackEvent(df, el, _) => ApplyDrawAttack(df, el, h.owner, ctx, w);
    case PassAttackEvent => ApplyPassAttack(h.owner, ctx, w);
    case CoverAttackEvent => ApplyCoverAttack(h.owner, ctx, w);
  }

  /** The handlers applied one after another, in list order. */
  function Run(hs: seq<Handler>, s: ContextState, w: World): ContextState
    requires AllContextHandlers(hs)
    decreases |hs|
  {
    if hs == [] then s else Run(hs[1..], Effect(hs[0], s, w), w)
  }

  /** How many handlers of the list redirect the action when run in order. */
  function RedirectCount(hs: seq<Handler>, s: ContextState, w: World): nat
    requires AllContextHandlers(hs)
    decreases |hs|
  {
    if hs == [] then 0
    else
      var s' := Effect(hs[0], s, w);
      (if IsRedirector(hs[0].ev) && s' != s then 1 else 0) + RedirectCount(hs[1..], s', w)
  }

  /** Once the context is redirected, no handler of any list redirects it again,
      and it stays redirected. */
  lemma {:induction false} NoRedirectOnceRedirected(hs: seq<Handler>, s: ContextState, w: World)
    requires AllContextHandlers(hs)
    requires Redirected in s.tags
    ensures RedirectCount(hs, s, w) == 0
    ensures Redirected in Run(hs, s, w).tags
    decreases |hs|
  {
    if hs != [] {
      NoRedirectOnceRedirected(hs[1..], Effect(hs[0], s, w), w);
    }
  }

  /** In any list of these handlers at most one redirect takes effect. */
  lemma {:induction false} AtMostOneRedirect(hs: seq<Handler>, s: ContextState, w: World)
    requires AllContextHandlers(hs)
    ensures RedirectCount(hs, s, w) <= 1
    decreases |hs|
  {
    if hs != [] {
      var s' := Effect(hs[0], s, w);
      if IsRedirector(hs[0].ev) && s' != s {
        NoRedirectOnceRedirected(hs[1..], s', w);
      } else {
        AtMostOneRedirect(hs[1..], s', w);
      }
    }
  }

  /** Once an explosion is cancelled, no later handler of this file re-enables it. */
  lemma {:induction false} CancellationIsFinal(hs: seq<Handler>, s: ContextState, w: World)
    requires AllContextHandlers(hs)
    requires s.range == 0
    ensures Run(hs, s, w).range == 0
    decreases |hs|
  {
    if hs != [] {
      CancellationIsFinal(hs[1..], Effect(hs[0], s, w), w);
    }
  }

  /** The recorded multipliers only grow: the factors already there stay, in order. */
  lemma {:induction false} MultipliersOnlyAppend(hs: seq<Handler>, s: ContextState, w: World)
    requires AllContextHandlers(hs)
    ensures |s.dmgMult| <= |Run(hs, s, w).dmgMult|
    ensures Run(hs, s, w).dmgMult[..|s.dmgMult|] == s.dmgMult
    decreases |hs|
  {
    if hs != [] {
      var s' := Effect(hs[0], s, w);
      MultipliersOnlyAppend(hs[1..], s', w);
      assert s'.dmgMult[..|s.dmgMult|] == s.dmgMult;
    }
  }

  // ---------------------------------------------------------------------
  // FollowUpEvent.CreateContext

  /** A follow-up is made only after damage was dealt, and never for the
      attacker's own follow-up event. */
  predicate FollowUpFires(owner: CharId, s: ContextState)
  {
    DamageDealtOf(s) > 0 && owner != s.user
  }

  /** The character the follow-up aims at: the original target or the original user. */
  function FollowUpTarget(affectTarget: bool, s: ContextState): Option<CharId>
  {
    if affectTarget then s.target else Some(s.user)
  }

  /** The nested context, and the direction the owner is turned to face. */
  datatype Invocation = Invocation(context: ContextState, facing: Dir8)

  function FollowUpInvocation(invokedMove: int, affectTarget: bool, frontOffset: int, owner: CharId,
                              s: ContextState, w: World, getDir: (Loc, Loc) -> Dir8): (r: Option<Invocation>)
    // the chosen target must exist once the follow-up fires
    requires FollowUpFires(owner, s) ==> FollowUpTarget(affectTarget, s).Some?
    ensures r.Some? <==> FollowUpFires(owner, s)
    ensures r.Some? ==>
      var target := w.info(FollowUpTarget(affectTarget, s).value).loc;
      var ownerLoc := w.info(owner).loc;
      var n := r.value.context;
      && r.value.facing == getDir(ownerLoc, target)
      && n.actionType == Skill
      && n.user == owner
      && n.usageSlot == ForcedSlot
      && n.startDir == r.value.facing
      // the invoked move's data, explosion, hitbox and strikes are copied
      && n.data == w.skill(invokedMove).data.(id := invokedMove)
      && n.range == w.skill(invokedMove).explosionRange
      && n.strikes == w.skill(invokedMove).strikes
      && n.hitboxAction == w.skill(invokedMove).hitboxAction.(hitOffset := n.hitboxAction.hitOffset)
      // the hit offset reaches from the tile in front of the owner to the target
      && n.hitboxAction.hitOffset == target.Minus(ownerLoc.Plus(DirLoc(r.value.facing).Times(frontOffset)))
      && n.item == BlankItem
      // a fresh context: tagged as a follow-up, and nothing else inherited
      && n.tags == {FollowUp}
      && n.dmgMult == []
  {
    if FollowUpFires(owner, s) then
      var target := w.info(FollowUpTarget(affectTarget, s).value).loc;
      var ownerLoc := w.info(owner).loc;
      var attackDir := getDir(ownerLoc, target);
      var frontLoc := ownerLoc.Plus(DirLoc(attackDir).Times(frontOffset));
      var entry := w.skill(invokedMove);
      Some(Invocation(
        ContextState(
          actionType := Skill,
          user := owner,
          target := Option.None,
          usageSlot := ForcedSlot,
          startDir := attackDir,
          data := entry.data.(id := invokedMove),
          range := entry.explosionRange,
          visualsCleared := false,
          hitboxAction := entry.hitboxAction.(hitOffset := target.Minus(frontLoc)),
          strikes := entry.strikes,
          item := BlankItem,
          explosionTile := Loc(0, 0),
          tags := {FollowUp},
          damageDealt := 0,
          dmgMult := []),
        attackDir))
    else Option.None
  }

  /** The follow-up auto-targets: from the tile in front of the owner, its
      hit offset lands exactly on the chosen target. */
  lemma FollowUpAutoTargets(invokedMove: int, affectTarget: bool, frontOffset: int, owner: CharId,
                            s: ContextState, w: World, getDir: (Loc, Loc) -> Dir8)
    requires FollowUpFires(owner, s) && FollowUpTarget(affectTarget, s).Some?
    ensures var r := FollowUpInvocation(invokedMove, affectTarget, frontOffset, owner, s, w, getDir).value;
            w.info(owner).loc.Plus(DirLoc(r.facing).Times(frontOffset)).Plus(r.context.hitboxAction.hitOffset)
            == w.info(FollowUpTarget(affectTarget, s).value).loc
  {
  }

  /** The nested context is not redirected, so the redirecting handlers may
      act on it afresh. */
  lemma FollowUpStartsUnredirected(invokedMove: int, affectTarget: bool, frontOffset: int, owner: CharId,
                                   s: ContextState, w: World, getDir: (Loc, Loc) -> Dir8)
    requires FollowUpFires(owner, s) && FollowUpTarget(affectTarget, s).Some?
    ensures var n := FollowUpInvocation(invokedMove, affectTarget, frontOffset, owner, s, w, getDir).value.context;
            Redirected !in n.tags && FollowUp in n.tags
  {
  }

  /** `FollowUpEvent.CreateContext`: a new, unaliased context for the invoked
      move, or null; `facing` is the direction the owner was turned to. */
  method CreateContext(invokedMove: int, affectTarget: bool, frontOffset: int, owner: CharId,
                       ctx: BattleContext, w: World, getDir: (Loc, Loc) -> Dir8)
    returns (newContext: BattleContext?, facing: Option<Dir8>)
    requires FollowUpFires(owner, ctx.State()) ==> FollowUpTarget(affectTarget, ctx.State()).Some?
    ensures newContext == null <==> !FollowUpFires(owner, ctx.State())
    ensures newContext == null ==> facing == Option.None
    ensures newContext != null ==>
      var r := FollowUpInvocation(invokedMove, affectTarget, frontOffset, owner, ctx.State(), w, getDir).value;
      fresh(newContext) && newContext.State() == r.context && facing == Some(r.facing)
  {
    var target := if affectTarget then ctx.target else Some(ctx.user);
    var damage := if DamageDealt in ctx.contextStates then ctx.damageDealt else 0;
    if damage > 0 && owner != ctx.user {
      // the attack faces the foe and auto-targets it
      var ownerLoc := w.info(owner).loc;
      var attackDir := getDir(ownerLoc, w.info(target.value).loc);
      facing := Some(attackDir);
      var frontLoc := ownerLoc.Plus(DirLoc(attackDir).Times(frontOffset));
      var entry := w.skill(invokedMove);
      var n := ContextState(Skill, owner, Option.None, ForcedSlot, attackDir,
                            entry.data.(id := invokedMove), entry.explosionRange, false,
                            entry.hitboxAction.(hitOffset := w.info(target.value).loc.Minus(frontLoc)),
                            entry.strikes, BlankItem, Loc(0, 0), {}, 0, []);
      newContext := new BattleContext.FromState(n);
      // the tag that lets the invoked move switch to its follow-up form
      newContext.SetTag(FollowUp);
      return;
    }
    newContext, facing := null, Option.None;
  }
}
