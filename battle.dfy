/** The resolution context of one battle action (`BattleContext`), the move
    data it carries, the battle events attached to moves, and the read-only
    view of the dungeon map that the events consult. */
module Battle {

  import opened Wrappers
  import opened Geometry

  /** A character on the current map; characters are compared by identity. */
  type CharId = nat

  /** `BattleActionType`. */
  datatype ActionType = Skill | Item | Throw | Trap

  /** `BattleData.SkillCategory`. */
  datatype SkillCategory = Physical | Magical | Status

  /** One flag of the `Alignment` bit set; a set of flags stands for the
      bit set, the empty set for `Alignment.None`. */
  datatype AlignFlag = Self | Friend | Foe

  type Alignment = set<AlignFlag>

  /** The context-state tags these events test and set. */
  datatype Tag = Redirected | FollowUp | DamageDealt

  /** One factor handed to `AddContextStateMult<DmgMult>`: num / den. */
  datatype Mult = Mult(num: int, den: int)

  /** Members of `BattleData.SkillStates`. */
  datatype SkillState = BasePowerState | OtherSkillState(id: nat)

  /** The battle events: the handlers of this model with their configuration
      fields (emitters and sounds as opaque handles, message keys as
      strings), and every other event as an opaque identifier. */
  datatype BattleEvent =
    | SupportAbilityEvent(supportAbility: int)
    | SnatchEvent(emitter: nat, sound: string)
    | AllyDifferentExplosionEvent(baseEvents: seq<BattleEvent>)
    | DampEvent(div: int, msg: string)
    | DampItemEvent
    | CatchItemSplashEvent
    | IsolateElementEvent(element: int)
    | DrawAttackEvent(drawFrom: Alignment, element: int, msg: string)
    | PassAttackEvent
    | CoverAttackEvent
    | FollowUpEvent(invokedMove: int, affectTarget: bool, frontOffset: int, msg: string)
    | OtherEvent(id: nat)

  /** `Clone` of every event: a field-by-field copy, deep for the list of
      base events. Events are values, so the copy equals the original and
      nothing done to one can reach the other. */
  function Clone(e: BattleEvent): (r: BattleEvent)
    ensures r == e
    decreases e
  {
    match e
    case SupportAbilityEvent(a) => SupportAbilityEvent(a)
    case SnatchEvent(em, snd) => SnatchEvent(em, snd)
    case AllyDifferentExplosionEvent(bs) =>
      var copies := seq(|bs|, i requires 0 <= i < |bs| => Clone(bs[i]));
      assert copies == bs;
      AllyDifferentExplosionEvent(copies)
    case DampEvent(d, m) => DampEvent(d, m)
    case DampItemEvent => DampItemEvent
    case CatchItemSplashEvent => CatchItemSplashEvent
    case IsolateElementEvent(el) => IsolateElementEvent(el)
    case DrawAttackEvent(df, el, m) => DrawAttackEvent(df, el, m)
    case PassAttackEvent => PassAttackEvent
    case CoverAttackEvent => CoverAttackEvent
    case FollowUpEvent(mv, at, fo, m) => FollowUpEvent(mv, at, fo, m)
    case OtherEvent(id) => OtherEvent(id)
  }

  /** An entry of a priority list of events. */
  datatype PriorityEntry = PriorityEntry(priority: int, event: BattleEvent)

  /** An entry of the per-tile hit list, kept opaque. */
  datatype TileHit = TileHit(priority: int, id: nat)

  /** `BattleData`: the move's identity, category, element, hit handlers and
      skill states. */
  datatype BattleData = BattleData(
    id: int,
    category: SkillCategory,
    element: int,
    onHits: seq<PriorityEntry>,
    onHitTiles: seq<TileHit>,
    skillStates: set<SkillState>)

  /** The targeting shape: only "is it a `LinearAction`, and does it stop at
      the first hit" matters to these events. */
  datatype HitboxShape = LinearAction(stopAtHit: bool) | OtherHitbox(shape: nat)

  datatype HitboxAction = HitboxAction(shape: HitboxShape, targetAlignments: Alignment, hitOffset: Loc)

  /** The item of the context; `BlankItem` is a freshly constructed `InvItem`. */
  datatype InvItem = BlankItem | InvItem(id: int)

  /** `UsageSlot`: the forced slot of invoked moves, or a move slot index. */
  datatype UsageSlot = ForcedSlot | SlotIndex(index: int)

  /** What the events read of a character. */
  datatype CharInfo = CharInfo(
    loc: Loc,
    dead: bool,
    hp: int,
    maxHp: int,
    equippedItemId: int,
    monsterTeam: bool,
    intrinsics: set<int>)

  /** The item states of an item's data that the events test. */
  datatype ItemInfo = ItemInfo(recruit: bool, edible: bool, ammo: bool)

  /** The skill data `DataManager.GetSkill` returns: move data, explosion
      radius, hitbox and strike count. */
  datatype SkillEntry = SkillEntry(data: BattleData, explosionRange: int, hitboxAction: HitboxAction, strikes: int)

  /** The current map and the data tables, as lookups:
      `charAt` is `GetCharAtLoc`, `characters` is `IterateCharacters` in its
      order, `matchup` is `GetMatchup`, `itemInfo` and `skill` are
      `DataManager.GetItem` and `GetSkill`. */
  datatype World = World(
    charAt: Loc -> Option<CharId>,
    characters: seq<CharId>,
    info: CharId -> CharInfo,
    matchup: (CharId, CharId) -> Alignment,
    itemInfo: InvItem -> ItemInfo,
    skill: int -> SkillEntry)

  /** The value of every field of a `BattleContext` at one moment. */
  datatype ContextState = ContextState(
    actionType: ActionType,
    user: CharId,
    target: Option<CharId>,
    usageSlot: UsageSlot,
    startDir: Dir8,
    data: BattleData,
    range: int,
    visualsCleared: bool,
    hitboxAction: HitboxAction,
    strikes: int,
    item: InvItem,
    explosionTile: Loc,
    tags: set<Tag>,
    damageDealt: int,
    dmgMult: seq<Mult>)

  /** `GetContextStateInt<DamageDealt>(0)`. */
  function DamageDealtOf(s: ContextState): (r: int)
    ensures DamageDealt !in s.tags ==> r == 0
    ensures DamageDealt in s.tags ==> r == s.damageDealt
  {
    if DamageDealt in s.tags then s.damageDealt else 0
  }

  /** The resolution context of one action. `range` is `Explosion.Range`;
      `visualsCleared` records that the explosion's effect, emitter and tile
      emitter were replaced by empty ones; `damageDealt` is the amount the
      `DamageDealt` tag carries; `dmgMult` lists the factors given to the
      damage multiplier, in order. */
  class BattleContext {
    var actionType: ActionType
    var user: CharId
    var target: Option<CharId>
    var usageSlot: UsageSlot
    var startDir: Dir8
    var data: BattleData
    var range: int
    var visualsCleared: bool
    var hitboxAction: HitboxAction
    var strikes: int
    var item: InvItem
    var explosionTile: Loc
    var contextStates: set<Tag>
    var damageDealt: int
    var dmgMult: seq<Mult>

    function State(): ContextState
      reads this
    {
      ContextState(actionType, user, target, usageSlot, startDir, data, range, visualsCleared,
                   hitboxAction, strikes, item, explosionTile, contextStates, damageDealt, dmgMult)
    }

    /** A context whose fields are initialised to the given values. */
    constructor FromState(s: ContextState)
      ensures State() == s
    {
      actionType, user, target, usageSlot, startDir := s.actionType, s.user, s.target, s.usageSlot, s.startDir;
      data, range, visualsCleared, hitboxAction := s.data, s.range, s.visualsCleared, s.hitboxAction;
      strikes, item, explosionTile := s.strikes, s.item, s.explosionTile;
      contextStates, damageDealt, dmgMult := s.tags, s.damageDealt, s.dmgMult;
    }

    /** `AddContextStateMult<DmgMult>(false, num, den)`: records one factor. */
    method AddDmgMult(num: int, den: int)
      modifies this
      ensures State() == old(State()).(dmgMult := old(dmgMult) + [Mult(num, den)])
    {
      dmgMult := dmgMult + [Mult(num, den)];
    }

    /** `ContextStates.Set(t)`. */
    method SetTag(t: Tag)
      modifies this
      ensures State() == old(State()).(tags := old(contextStates) + {t})
    {
      contextStates := contextStates + {t};
    }

    /** Range 0 and empty visuals: the four assignments that cancel an explosion. */
    method CancelExplosion()
      modifies this
      ensures State() == old(State()).(range := 0, visualsCleared := true)
    {
      range := 0;
      visualsCleared := true;
    }
  }
}
