/**
 * The button focus/visibility reconciler: once per frame it sweeps the button
 * entities in reverse order, lets at most one of them hold the global input
 * focus token, and switches each button's "normal" and "pressed" children on
 * and off from its touch and checked state.
 */
module ButtonSystem {

  /** Entity ids are the world's non-negative integers. */
  type EntityId = nat

  /** The focus token's value when no entity holds it. */
  const NoEntity: int := -1

  /** The child layers a button switches between. */
  const NormalLayer := "normal"
  const PressedLayer := "pressed"

  /** A button's own flags: checked is set from outside, the touch state by the hit test. */
  datatype ButtonComponent = ButtonComponent(isChecked: bool, touchState: bool)

  /**
   * The frame's input, as far as the reconciler can see it: whether the pointer
   * is down, and which entities the pointer hits once mapped into their local
   * coordinates.
   */
  datatype Input = Input(pointerDown: bool, hits: set<EntityId>)

  /** The hit test: pointer down and inside the entity's dimensions. */
  predicate Touched(input: Input, e: EntityId)
  {
    input.pointerDown && e in input.hits
  }

  /**
   * What a sweep reads but never writes: Node children, viewport markers and
   * each entity's ZIndex layer name.  An entity without a Node has no entry in
   * `children`, one without a ZIndex none in `layerName`.
   */
  datatype Scene = Scene(children: map<EntityId, seq<EntityId>>, viewPorts: set<EntityId>,
                         layerName: map<EntityId, string>)

  /**
   * What a sweep writes: the focus token, each entity's MainItem visibility
   * (an entity without a MainItem has no entry) and each ButtonComponent.
   */
  datatype ButtonState = ButtonState(inputHoldEntity: int, visible: map<EntityId, bool>,
                                     buttons: map<EntityId, ButtonComponent>)

  /** Every child has the MainItem the editing branch writes to. */
  predicate ShowReady(visible: map<EntityId, bool>, kids: seq<EntityId>)
  {
    forall c :: c in kids ==> c in visible
  }

  /** The editing override: every child of the viewport becomes visible (see ShowAllShows). */
  function ShowAll(visible: map<EntityId, bool>, kids: seq<EntityId>): (r: map<EntityId, bool>)
    requires ShowReady(visible, kids)
    ensures r.Keys == visible.Keys
    decreases |kids|
  {
    if |kids| == 0 then visible else ShowAll(visible, kids[..|kids| - 1])[kids[|kids| - 1] := true]
  }

  /** After the override every child is visible and every other entity keeps its visibility. */
  lemma {:induction false} ShowAllShows(visible: map<EntityId, bool>, kids: seq<EntityId>)
    requires ShowReady(visible, kids)
    ensures forall c :: c in visible ==> ShowAll(visible, kids)[c] == (c in kids || visible[c])
    decreases |kids|
  {
    if |kids| > 0 {
      ShowAllShows(visible, kids[..|kids| - 1]);
      assert forall c :: c in kids ==> c in kids[..|kids| - 1] || c == kids[|kids| - 1];
    }
  }

  /**
   * Every child has a ZIndex, and a child in the normal or pressed layer also
   * has the MainItem the pressed-look branch writes to.
   */
  predicate LooksReady(visible: map<EntityId, bool>, layerName: map<EntityId, string>, kids: seq<EntityId>)
  {
    forall c :: c in kids ==>
      c in layerName && (layerName[c] == NormalLayer || layerName[c] == PressedLayer ==> c in visible)
  }

  /** A child's visibility under the pressed look (or not): only the two button layers react. */
  function ChildLook(layer: string, pressedLook: bool, was: bool): bool
  {
    if layer == NormalLayer then !pressedLook
    else if layer == PressedLayer then pressedLook
    else was
  }

  /** The visibility of all children under one look, child by child in order (see ApplyLookSets). */
  function ApplyLook(visible: map<EntityId, bool>, layerName: map<EntityId, string>, kids: seq<EntityId>,
                     pressedLook: bool): (r: map<EntityId, bool>)
    requires LooksReady(visible, layerName, kids)
    ensures r.Keys == visible.Keys
    decreases |kids|
  {
    if |kids| == 0 then visible
    else
      var prev := ApplyLook(visible, layerName, kids[..|kids| - 1], pressedLook);
      var c := kids[|kids| - 1];
      if layerName[c] == NormalLayer then prev[c := !pressedLook]
      else if layerName[c] == PressedLayer then prev[c := pressedLook]
      else prev
  }

  /**
   * Under the pressed look "normal" children hide and "pressed" children show,
   * otherwise the reverse; children in other layers and non-children keep
   * their visibility.  Repeated children make no difference.
   */
  lemma {:induction false} ApplyLookSets(visible: map<EntityId, bool>, layerName: map<EntityId, string>,
                                         kids: seq<EntityId>, pressedLook: bool)
    requires LooksReady(visible, layerName, kids)
    ensures forall c :: c in visible ==>
      ApplyLook(visible, layerName, kids, pressedLook)[c]
        == if c in kids then ChildLook(layerName[c], pressedLook, visible[c]) else visible[c]
    decreases |kids|
  {
    if |kids| > 0 {
      ApplyLookSets(visible, layerName, kids[..|kids| - 1], pressedLook);
      assert forall d :: d in kids ==> d in kids[..|kids| - 1] || d == kids[|kids| - 1];
    }
  }

  /** One more child under the look: ApplyLook's step on the prefix ending at `kids[i]`. */
  lemma ApplyLookStep(visible: map<EntityId, bool>, layerName: map<EntityId, string>, kids: seq<EntityId>,
                      i: nat, pressedLook: bool)
    requires i < |kids|
    requires LooksReady(visible, layerName, kids)
    ensures LooksReady(visible, layerName, kids[..i]) && LooksReady(visible, layerName, kids[..i + 1])
    ensures kids[i] in layerName
    ensures ApplyLook(visible, layerName, kids[..i + 1], pressedLook)
         == (var prev := ApplyLook(visible, layerName, kids[..i], pressedLook);
             if layerName[kids[i]] == NormalLayer then prev[kids[i] := !pressedLook]
             else if layerName[kids[i]] == PressedLayer then prev[kids[i] := pressedLook]
             else prev)
  {
    assert kids[..i + 1][..i] == kids[..i];
    assert kids[i] in kids;
  }

  /**
   * What processing `e` dereferences, path by path: nothing without a Node;
   * every child's MainItem for a viewport; nothing when another entity holds
   * the token; otherwise the ButtonComponent and what ApplyLook reads.
   */
  predicate StepReady(scene: Scene, st: ButtonState, e: EntityId)
  {
    e in scene.children ==>
      if e in scene.viewPorts then ShowReady(st.visible, scene.children[e])
      else
        (st.inputHoldEntity != e && st.inputHoldEntity != NoEntity)
        || (e in st.buttons && LooksReady(st.visible, scene.layerName, scene.children[e]))
  }

  /** Processing one button entity; the cases are spelled out in ProcessStepCases. */
  function ProcessStep(scene: Scene, st: ButtonState, e: EntityId, input: Input): (r: ButtonState)
    requires StepReady(scene, st, e)
    ensures r.visible.Keys == st.visible.Keys && r.buttons.Keys == st.buttons.Keys
  {
    if e !in scene.children then st
    else if e in scene.viewPorts then st.(visible := ShowAll(st.visible, scene.children[e]))
    else if st.inputHoldEntity != e && st.inputHoldEntity != NoEntity then st
    else
      var touched := Touched(input, e);
      var kids := scene.children[e];
      ButtonState(
        if |kids| == 0 then st.inputHoldEntity else if touched then e else NoEntity,
        ApplyLook(st.visible, scene.layerName, kids, touched || st.buttons[e].isChecked),
        st.buttons[e := st.buttons[e].(touchState := touched)])
  }

  /** What processing one button entity does, case by case. */
  lemma ProcessStepCases(scene: Scene, st: ButtonState, e: EntityId, input: Input) returns (r: ButtonState)
    requires StepReady(scene, st, e)
    ensures r == ProcessStep(scene, st, e, input)
    // no Node: nothing happens
    ensures e !in scene.children ==> r == st
    // editing: every child shows, the token and the buttons stay
    ensures e in scene.children && e in scene.viewPorts ==>
      && r.inputHoldEntity == st.inputHoldEntity && r.buttons == st.buttons
      && forall c :: c in r.visible ==> r.visible[c] == (c in scene.children[e] || st.visible[c])
    // another entity holds the focus: nothing happens, not even the touch state
    ensures (e in scene.children && e !in scene.viewPorts
             && st.inputHoldEntity != e && st.inputHoldEntity != NoEntity) ==> r == st
    // otherwise: touch state, token and look follow the hit test
    ensures (e in scene.children && e !in scene.viewPorts
             && (st.inputHoldEntity == e || st.inputHoldEntity == NoEntity)) ==>
      var kids := scene.children[e];
      var look := Touched(input, e) || st.buttons[e].isChecked;
      && r.buttons == st.buttons[e := st.buttons[e].(touchState := Touched(input, e))]
      && r.inputHoldEntity == (if |kids| == 0 then st.inputHoldEntity
                               else if Touched(input, e) then e else NoEntity)
      && forall c :: c in r.visible ==>
           r.visible[c] == if c in kids then ChildLook(scene.layerName[c], look, st.visible[c]) else st.visible[c]
  {
    r := ProcessStep(scene, st, e, input);
    if e in scene.children {
      if e in scene.viewPorts {
        ShowAllShows(st.visible, scene.children[e]);
      } else if st.inputHoldEntity == e || st.inputHoldEntity == NoEntity {
        ApplyLookSets(st.visible, scene.layerName, scene.children[e], Touched(input, e) || st.buttons[e].isChecked);
      }
    }
  }

  /** Every step of the reverse sweep over `ids` finds what it dereferences. */
  predicate SweepReady(scene: Scene, st: ButtonState, ids: seq<EntityId>, input: Input)
    decreases |ids|
  {
    |ids| == 0
    || (var e := ids[|ids| - 1];
        StepReady(scene, st, e) && SweepReady(scene, ProcessStep(scene, st, e, input), ids[..|ids| - 1], input))
  }

  /**
   * One frame: the ids processed from the last to the first.  The token ends
   * where it started, free, or on one of the swept entities.
   */
  function Sweep(scene: Scene, st: ButtonState, ids: seq<EntityId>, input: Input): (r: ButtonState)
    requires SweepReady(scene, st, ids, input)
    ensures r.visible.Keys == st.visible.Keys && r.buttons.Keys == st.buttons.Keys
    ensures r.inputHoldEntity == st.inputHoldEntity || r.inputHoldEntity == NoEntity || r.inputHoldEntity in ids
    decreases |ids|
  {
    if |ids| == 0 then st
    else
      var e := ids[|ids| - 1];
      var r := Sweep(scene, ProcessStep(scene, st, e, input), ids[..|ids| - 1], input);
      assert r.inputHoldEntity in ids[..|ids| - 1] ==> r.inputHoldEntity in ids;
      r
  }

  /** An entity that takes the token when it is processed with the token free. */
  predicate Claims(scene: Scene, e: EntityId, input: Input)
  {
    e in scene.children && e !in scene.viewPorts && |scene.children[e]| > 0 && Touched(input, e)
  }

  /**
   * The first claimant in sweep order, that is the one with the highest index,
   * or NoEntity when no entity claims.
   */
  function FirstClaimant(scene: Scene, ids: seq<EntityId>, input: Input): (r: int)
    ensures r == NoEntity <==> forall i :: 0 <= i < |ids| ==> !Claims(scene, ids[i], input)
    ensures r != NoEntity ==>
      exists i :: 0 <= i < |ids| && ids[i] == r && Claims(scene, r, input)
        && forall j :: i < j < |ids| ==> !Claims(scene, ids[j], input)
    decreases |ids|
  {
    if |ids| == 0 then NoEntity
    else if Claims(scene, ids[|ids| - 1], input) then
      var last := |ids| - 1;
      assert ids[last] == ids[|ids| - 1];  // the witness index for the existential
      ids[last]
    else
      var r := FirstClaimant(scene, ids[..|ids| - 1], input);
      assert forall i :: 0 <= i < |ids| - 1 ==> ids[..|ids| - 1][i] == ids[i];
      r
  }

  /** Sweeping `a + b` sweeps `b` first, then `a`. */
  lemma {:induction false} SweepSplit(scene: Scene, st: ButtonState, a: seq<EntityId>, b: seq<EntityId>, input: Input)
    requires SweepReady(scene, st, a + b, input)
    ensures SweepReady(scene, st, b, input)
    ensures SweepReady(scene, Sweep(scene, st, b, input), a, input)
    ensures Sweep(scene, st, a + b, input) == Sweep(scene, Sweep(scene, st, b, input), a, input)
    decreases |b|
  {
    if |b| == 0 {
      assert a + b == a;
    } else {
      var e := b[|b| - 1];
      assert (a + b)[|a + b| - 1] == e;
      assert (a + b)[..|a + b| - 1] == a + b[..|b| - 1];
      SweepSplit(scene, ProcessStep(scene, st, e, input), a, b[..|b| - 1], input);
    }
  }

  /**
   * While `h` holds the token, every other entity is skipped (or only shows its
   * children, if it is a viewport), and `h` itself claims again whenever it
   * comes round: the token stays with `h` and the touch states of the others
   * stay as they were.
   */
  lemma {:induction false} HeldTokenStays(scene: Scene, st: ButtonState, ids: seq<EntityId>, input: Input)
    requires SweepReady(scene, st, ids, input)
    requires st.inputHoldEntity != NoEntity
    requires st.inputHoldEntity in ids ==> Claims(scene, st.inputHoldEntity, input)
    ensures Sweep(scene, st, ids, input).inputHoldEntity == st.inputHoldEntity
    ensures forall e :: e in st.buttons && e != st.inputHoldEntity ==> Sweep(scene, st, ids, input).buttons[e] == st.buttons[e]
    decreases |ids|
  {
    if |ids| > 0 {
      var e := ids[|ids| - 1];
      var next := ProcessStepCases(scene, st, e, input);
      assert next.inputHoldEntity == st.inputHoldEntity;
      assert forall d :: d in st.buttons && d != st.inputHoldEntity ==> next.buttons[d] == st.buttons[d];
      HeldTokenStays(scene, next, ids[..|ids| - 1], input);
    }
  }

  /**
   * Whether `c` is a child of none of the entities in `ids` that write to their
   * children while `h` holds the token: `h` itself and the viewports.
   */
  predicate OutOfReach(scene: Scene, h: int, ids: seq<EntityId>, c: EntityId)
  {
    forall i :: 0 <= i < |ids| && ids[i] in scene.children && (ids[i] == h || ids[i] in scene.viewPorts) ==>
      c !in scene.children[ids[i]]
  }

  /**
   * While `h` holds the token, the visibility of an entity that is a child
   * neither of `h` nor of a swept viewport is left as it was.
   */
  lemma {:induction false} HeldTokenKeepsOtherLooks(scene: Scene, st: ButtonState, ids: seq<EntityId>, input: Input)
    requires SweepReady(scene, st, ids, input)
    requires st.inputHoldEntity != NoEntity
    requires st.inputHoldEntity in ids ==> Claims(scene, st.inputHoldEntity, input)
    ensures forall c :: c in st.visible && OutOfReach(scene, st.inputHoldEntity, ids, c) ==>
      Sweep(scene, st, ids, input).visible[c] == st.visible[c]
    decreases |ids|
  {
    if |ids| > 0 {
      var e := ids[|ids| - 1];
      var rest := ids[..|ids| - 1];
      var next := ProcessStepCases(scene, st, e, input);
      assert next.inputHoldEntity == st.inputHoldEntity;
      HeldTokenKeepsOtherLooks(scene, next, rest, input);
      forall c | c in st.visible && OutOfReach(scene, st.inputHoldEntity, ids, c)
        ensures Sweep(scene, st, ids, input).visible[c] == st.visible[c]
      {
        assert forall i :: 0 <= i < |rest| ==> rest[i] == ids[i];
        assert OutOfReach(scene, next.inputHoldEntity, rest, c);
        assert e in scene.children && (e == st.inputHoldEntity || e in scene.viewPorts) ==>
          c !in scene.children[e];
        assert next.visible[c] == st.visible[c];
      }
    }
  }

  /**
   * A stale lock: a holder without a Node, without children, or marked as a
   * viewport never reaches the token assignment, which sits inside the loop
   * over the children; so the token stays with it through every sweep, whatever
   * the input, and every other button is skipped.
   */
  lemma {:induction false} StaleHolderKeepsToken(scene: Scene, st: ButtonState, ids: seq<EntityId>, input: Input)
    requires SweepReady(scene, st, ids, input)
    requires st.inputHoldEntity != NoEntity
    requires st.inputHoldEntity !in scene.children || st.inputHoldEntity in scene.viewPorts
             || |scene.children[st.inputHoldEntity]| == 0
    ensures Sweep(scene, st, ids, input).inputHoldEntity == st.inputHoldEntity
    ensures forall e :: e in st.buttons && e != st.inputHoldEntity ==>
      Sweep(scene, st, ids, input).buttons[e] == st.buttons[e]
    decreases |ids|
  {
    if |ids| > 0 {
      var next := ProcessStepCases(scene, st, ids[|ids| - 1], input);
      assert next.inputHoldEntity == st.inputHoldEntity;
      assert forall d :: d in st.buttons && d != st.inputHoldEntity ==> next.buttons[d] == st.buttons[d];
      StaleHolderKeepsToken(scene, next, ids[..|ids| - 1], input);
    }
  }

  /** A sweep that meets only non-viewport entities other than the holder changes nothing at all. */
  lemma {:induction false} ForeignTokenSkipsAll(scene: Scene, st: ButtonState, ids: seq<EntityId>, input: Input)
    requires SweepReady(scene, st, ids, input)
    requires st.inputHoldEntity != NoEntity
    requires forall i :: 0 <= i < |ids| ==> ids[i] != st.inputHoldEntity && ids[i] !in scene.viewPorts
    ensures Sweep(scene, st, ids, input) == st
    decreases |ids|
  {
    if |ids| > 0 {
      var next := ProcessStepCases(scene, st, ids[|ids| - 1], input);
      assert next == st;
      ForeignTokenSkipsAll(scene, st, ids[..|ids| - 1], input);
    }
  }

  /**
   * The tie-break: starting from a free token, the sweep leaves the token with
   * the first claimant in sweep order (the highest index), or free when no
   * entity claims.
   */
  lemma {:induction false} SweepTieBreak(scene: Scene, st: ButtonState, ids: seq<EntityId>, input: Input)
    requires SweepReady(scene, st, ids, input)
    requires st.inputHoldEntity == NoEntity
    ensures Sweep(scene, st, ids, input).inputHoldEntity == FirstClaimant(scene, ids, input)
    decreases |ids|
  {
    if |ids| > 0 {
      var e := ids[|ids| - 1];
      var next := ProcessStepCases(scene, st, e, input);
      if Claims(scene, e, input) {
        assert next.inputHoldEntity == e;
        HeldTokenStays(scene, next, ids[..|ids| - 1], input);
      } else {
        assert next.inputHoldEntity == NoEntity;
        SweepTieBreak(scene, next, ids[..|ids| - 1], input);
      }
    }
  }

  /**
   * The other half of the tie-break: a holder `h` that has children and is not
   * touched releases the token when the sweep reaches it, and the entities
   * after it in sweep order (the lower indices) then compete as from a free
   * token.
   */
  lemma {:induction false} ReleaseThenClaim(scene: Scene, st: ButtonState, a: seq<EntityId>, h: EntityId,
                                            b: seq<EntityId>, input: Input)
    requires SweepReady(scene, st, a + [h] + b, input)
    requires st.inputHoldEntity == h && h !in b
    requires h in scene.children && h !in scene.viewPorts && |scene.children[h]| > 0 && !Touched(input, h)
    ensures Sweep(scene, st, a + [h] + b, input).inputHoldEntity == FirstClaimant(scene, a, input)
  {
    SweepSplit(scene, st, a + [h], b, input);
    HeldTokenStays(scene, st, b, input);
    var mid := Sweep(scene, st, b, input);
    assert (a + [h])[|a + [h]| - 1] == h && (a + [h])[..|a + [h]| - 1] == a;
    var next := ProcessStepCases(scene, mid, h, input);
    assert next.inputHoldEntity == NoEntity;
    SweepTieBreak(scene, next, a, input);
  }

  /**
   * The reconciler system: the token persists across frames; the component
   * maps are this system's view of the world's store.
   */
  class ButtonSystem {
    var inputHoldEntity: int
    /** The subscription's entities, in the order the sweep indexes them. */
    var actives: seq<EntityId>
    var children: map<EntityId, seq<EntityId>>
    var viewPorts: set<EntityId>
    var layerName: map<EntityId, string>
    var visible: map<EntityId, bool>
    var buttons: map<EntityId, ButtonComponent>

    /** A new system: nobody holds the focus, and it subscribes to an empty world. */
    constructor ()
      ensures inputHoldEntity == NoEntity
      ensures actives == [] && children == map[] && viewPorts == {} && layerName == map[]
      ensures visible == map[] && buttons == map[]
    {
      inputHoldEntity := NoEntity;
      actives := [];
      children := map[];
      viewPorts := {};
      layerName := map[];
      visible := map[];
      buttons := map[];
    }

    function SceneView(): Scene
      reads this
    {
      Scene(children, viewPorts, layerName)
    }

    function State(): ButtonState
      reads this
    {
      ButtonState(inputHoldEntity, visible, buttons)
    }

    method IsChecked(e: EntityId) returns (checked: bool)
      requires e in buttons
      ensures checked == buttons[e].isChecked
    {
      checked := buttons[e].isChecked;
    }

    /** The hit test; records its outcome as the button's touch state. */
    method IsTouched(e: EntityId, input: Input) returns (touched: bool)
      requires e in buttons
      modifies this`buttons
      ensures touched <==> input.pointerDown && e in input.hits
      ensures buttons == old(buttons)[e := old(buttons[e]).(touchState := touched)]
    {
      var button := buttons[e];
      if input.pointerDown {
        if e in input.hits {
          buttons := buttons[e := button.(touchState := true)];
          return true;
        }
      }
      buttons := buttons[e := button.(touchState := false)];
      return false;
    }

    method Process(e: EntityId, input: Input)
      requires StepReady(SceneView(), State(), e)
      modifies this`inputHoldEntity, this`visible, this`buttons
      ensures State() == ProcessStep(SceneView(), old(State()), e, input)
    {
      if e !in children {
        return;
      }
      var kids := children[e];
      ghost var visible0 := visible;
      if e in viewPorts {
        var i := 0;
        while i < |kids|
          invariant 0 <= i <= |kids|
          invariant visible == ShowAll(visible0, kids[..i])
          invariant inputHoldEntity == old(inputHoldEntity) && buttons == old(buttons)
        {
          assert kids[..i + 1][..i] == kids[..i];
          visible := visible[kids[i] := true];
          i := i + 1;
        }
        assert kids[..i] == kids;
        return;
      }
      if inputHoldEntity != e && inputHoldEntity != NoEntity {
        return;
      }
      ghost var hold0 := inputHoldEntity;
      assert LooksReady(visible0, layerName, kids);
      var touched := IsTouched(e, input);
      var checked := IsChecked(e);
      SwitchChildren(e, kids, touched, touched || checked);
    }

    /**
     * The look loop of Process: for each child the token is reassigned and the
     * child's visibility follows its layer.
     */
    method SwitchChildren(e: EntityId, kids: seq<EntityId>, touched: bool, pressedLook: bool)
      requires LooksReady(visible, layerName, kids)
      modifies this`inputHoldEntity, this`visible
      ensures visible == ApplyLook(old(visible), layerName, kids, pressedLook)
      ensures inputHoldEntity == if |kids| == 0 then old(inputHoldEntity) else if touched then e else NoEntity
    {
      ghost var visible0 := visible;
      var i := 0;
      while i < |kids|
        invariant 0 <= i <= |kids|
        invariant visible == ApplyLook(visible0, layerName, kids[..i], pressedLook)
        invariant inputHoldEntity == if i == 0 then old(inputHoldEntity) else if touched then e else NoEntity
      {
        ApplyLookStep(visible0, layerName, kids, i, pressedLook);
        var child := kids[i];
        inputHoldEntity := if touched then e else NoEntity;
        if pressedLook {
          if layerName[child] == NormalLayer {
            visible := visible[child := false];
          } else if layerName[child] == PressedLayer {
            visible := visible[child := true];
          }
        } else {
          if layerName[child] == NormalLayer {
            visible := visible[child := true];
          } else if layerName[child] == PressedLayer {
            visible := visible[child := false];
          }
        }
        i := i + 1;
      }
      assert kids[..i] == kids;
    }

    /** One frame: the active entities from the last index down to the first. */
    method ProcessSystem(input: Input)
      requires SweepReady(SceneView(), State(), actives, input)
      modifies this`inputHoldEntity, this`visible, this`buttons
      ensures State() == Sweep(SceneView(), old(State()), actives, input)
      ensures old(inputHoldEntity) == NoEntity ==> inputHoldEntity == FirstClaimant(SceneView(), actives, input)
    {
      var i := |actives| - 1;
      assert actives[..i + 1] == actives;
      while i >= 0
        invariant -1 <= i < |actives|
        invariant SweepReady(SceneView(), State(), actives[..i + 1], input)
        invariant Sweep(SceneView(), State(), actives[..i + 1], input) == Sweep(SceneView(), old(State()), actives, input)
      {
        Process(actives[i], input);
        assert actives[..i + 1][..i] == actives[..i];
        i := i - 1;
      }
      if old(inputHoldEntity) == NoEntity {
        SweepTieBreak(SceneView(), old(State()), actives, input);
      }
    }
  }
}
