/** The cube/sphere click toggle of 2scene.js.
    The demo's state is five values spread over module variables and three
    objects: `currentScene`, `cube.visible`, `sphere.visible`,
    `cube.userData.clickable` and the "Quitter" button's `style.display`.
    `Snapshot` is that state as a value; the spec functions below say what each
    handler does to it, and class `Demo` holds it in objects the handlers
    update in place. */
module CubeSphere {

  const CUBE := "cube"
  const SPHERE := "sphere"
  const NONE := "none"
  const BLOCK := "block"

  datatype Snapshot = Snapshot(
    currentScene: string,
    cubeVisible: bool,
    sphereVisible: bool,
    cubeClickable: bool,
    quitDisplay: string)

  /** The state `init()` leaves: cube scene, cube shown and clickable, sphere
      and button hidden. */
  function Initial(): Snapshot {
    Snapshot(CUBE, true, false, true, NONE)
  }

  /** The state a successful `switchScene()` leaves. */
  function SphereShown(): Snapshot {
    Snapshot(SPHERE, false, true, false, BLOCK)
  }

  /** `switchScene()`: acts only in the "cube" scene. */
  function Switched(s: Snapshot): Snapshot {
    if s.currentScene == CUBE then
      s.(cubeVisible := false, sphereVisible := true, cubeClickable := false,
         quitDisplay := BLOCK, currentScene := SPHERE)
    else s
  }

  /** `quitScene()`: overwrites all five values. */
  function Quitted(s: Snapshot): Snapshot {
    s.(cubeVisible := true, sphereVisible := false, cubeClickable := true,
       quitDisplay := NONE, currentScene := CUBE)
  }

  /** The document's click listener `onClick`; `hitsCube` stands for the
      raycast finding the cube under the mouse. */
  function Clicked(s: Snapshot, hitsCube: bool): Snapshot {
    if hitsCube && s.cubeClickable then Switched(s) else s
  }

  /** A click on the "Quitter" button: the button's own listener `quitScene`
      runs first, then the click bubbles up to the document's `onClick`. */
  function QuitterClicked(s: Snapshot, hitsCube: bool): Snapshot {
    Clicked(Quitted(s), hitsCube)
  }

  /** The five values agree: cube shown = cube clickable = cube scene, and
      sphere shown = button shown = the other scene. */
  predicate Consistent(s: Snapshot) {
    (s.currentScene == CUBE || s.currentScene == SPHERE)
    && (s.quitDisplay == NONE || s.quitDisplay == BLOCK)
    && s.cubeVisible == (s.currentScene == CUBE)
    && s.cubeClickable == (s.currentScene == CUBE)
    && s.sphereVisible == (s.currentScene != CUBE)
    && (s.quitDisplay == BLOCK) == (s.currentScene != CUBE)
  }

  datatype Event = DocumentClick(hitsCube: bool) | QuitterClick(hitsCube: bool)

  function Step(s: Snapshot, e: Event): Snapshot {
    match e
    case DocumentClick(hit) => Clicked(s, hit)
    case QuitterClick(hit) => QuitterClicked(s, hit)
  }

  /** The state after a sequence of user clicks. */
  function Run(s: Snapshot, events: seq<Event>): Snapshot
    decreases |events|
  {
    if events == [] then s else Run(Step(s, events[0]), events[1..])
  }

  lemma InitialIsCubeScene()
    ensures Initial().currentScene == CUBE && Initial().cubeClickable
    ensures Initial().cubeVisible && !Initial().sphereVisible
    ensures Initial().quitDisplay == NONE && Consistent(Initial())
  {
  }

  /** The consistent states are exactly the two scenes. */
  lemma ConsistentIsOneOfTwo(s: Snapshot)
    ensures Consistent(s) <==> (s == Initial() || s == SphereShown())
  {
  }

  /** A click switches scenes exactly when it hits the clickable cube in the
      cube scene; any other click leaves the state as it was. */
  lemma ClickSwitchesOnlyOnClickableCube(s: Snapshot, hitsCube: bool)
    requires Consistent(s)
    ensures Clicked(s, hitsCube) != s <==> hitsCube && s.cubeClickable
    ensures hitsCube && s.cubeClickable ==> Clicked(s, hitsCube) == SphereShown()
  {
  }

  lemma SwitchFromCube(s: Snapshot)
    requires s.currentScene == CUBE
    ensures Switched(s).currentScene == SPHERE && Switched(s).quitDisplay == BLOCK
    ensures !Switched(s).cubeVisible && Switched(s).sphereVisible && !Switched(s).cubeClickable
  {
  }

  lemma SwitchInSphereIsNoOp(s: Snapshot)
    requires s.currentScene != CUBE
    ensures Switched(s) == s
  {
  }

  /** `quitScene` restores the start state from any state whatever, so doing
      it twice is doing it once. */
  lemma QuitRestoresInitial(s: Snapshot)
    ensures Quitted(s) == Initial()
    ensures Quitted(Quitted(s)) == Quitted(s)
  {
  }

  lemma SwitchThenQuit(s: Snapshot)
    ensures Quitted(Switched(s)) == Initial()
    ensures Switched(Initial()) == SphereShown()
  {
  }

  /** Pressing "Quitter" ends in the cube scene unless the click, bubbling on
      to the document, also lands on the cube, which is clickable again by then. */
  lemma QuitterClickOutcome(s: Snapshot, hitsCube: bool)
    ensures QuitterClicked(s, hitsCube) == if hitsCube then SphereShown() else Initial()
  {
  }

  lemma StepPreservesConsistent(s: Snapshot, e: Event)
    requires Consistent(s)
    ensures Consistent(Step(s, e))
  {
  }

  /** Every state reachable by clicks from a consistent one is consistent; in
      particular every state the demo can reach from `init()`. */
  lemma {:induction false} RunPreservesConsistent(s: Snapshot, events: seq<Event>)
    requires Consistent(s)
    ensures Consistent(Run(s, events))
    decreases |events|
  {
    if events != [] {
      StepPreservesConsistent(s, events[0]);
      RunPreservesConsistent(Step(s, events[0]), events[1..]);
    }
  }

  lemma ReachableIsOneOfTwo(events: seq<Event>)
    ensures Run(Initial(), events) == Initial() || Run(Initial(), events) == SphereShown()
  {
    RunPreservesConsistent(Initial(), events);
    ConsistentIsOneOfTwo(Run(Initial(), events));
  }

  /** A scene object: only what the toggle touches. `clickable` stands for
      `userData.clickable`, which is undefined (falsy) until set. */
  class Mesh {
    var visible: bool
    var clickable: bool

    constructor ()
      ensures visible && !clickable
    {
      visible := true;
      clickable := false;
    }
  }

  class Button {
    var display: string

    constructor ()
      ensures display == ""
    {
      display := "";
    }
  }

  /** The module-level state of 2scene.js. */
  class Demo {
    var currentScene: string
    const cube: Mesh
    const sphere: Mesh
    const quitButton: Button

    /** The objects are distinct and the five values agree. */
    ghost predicate Valid()
      reads this, cube, sphere, quitButton
    {
      cube != sphere && Consistent(View())
    }

    function View(): Snapshot
      reads this, cube, sphere, quitButton
    {
      Snapshot(currentScene, cube.visible, sphere.visible, cube.clickable, quitButton.display)
    }

    /** `init()`, restricted to the toggle's state. */
    constructor Init()
      ensures Valid() && View() == Initial()
      ensures fresh(cube) && fresh(sphere) && fresh(quitButton)
    {
      currentScene := CUBE;
      var c := new Mesh();
      var s := new Mesh();
      var b := new Button();
      cube, sphere, quitButton := c, s, b;
      new;
      cube.clickable := true;
      sphere.visible := false;
      quitButton.display := NONE;
    }

    method OnClick(hitsCube: bool)
      requires Valid()
      modifies this, cube, sphere, quitButton
      ensures Valid() && View() == Clicked(old(View()), hitsCube)
      ensures sphere.clickable == old(sphere.clickable)
    {
      if hitsCube && cube.clickable {
        SwitchScene();
      }
    }

    method SwitchScene()
      requires Valid()
      modifies this, cube, sphere, quitButton
      ensures Valid() && View() == Switched(old(View()))
      ensures sphere.clickable == old(sphere.clickable)
    {
      if currentScene == CUBE {
        cube.visible := false;
        sphere.visible := true;
        cube.clickable := false;
        quitButton.display := BLOCK;
        currentScene := SPHERE;
      }
    }

    method QuitScene()
      requires Valid()
      modifies this, cube, sphere, quitButton
      ensures Valid() && View() == Quitted(old(View()))
      ensures sphere.clickable == old(sphere.clickable)
    {
      cube.visible := true;
      sphere.visible := false;
      cube.clickable := true;
      quitButton.display := NONE;
      currentScene := CUBE;
    }

    /** The browser's dispatch of a click on the "Quitter" button: target
        listener, then the document listener. */
    method QuitterClick(hitsCube: bool)
      requires Valid()
      modifies this, cube, sphere, quitButton
      ensures Valid() && View() == QuitterClicked(old(View()), hitsCube)
      ensures sphere.clickable == old(sphere.clickable)
    {
      QuitScene();
      OnClick(hitsCube);
    }
  }
}
