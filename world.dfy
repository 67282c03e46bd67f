/** The entities, the scenes and the engine state of farancanvas: the global
    scene registry `sceneIndex`, the active-scene pointer `currentScene`, the
    scene switch `LoadScene`, the per-scene event-listener bookkeeping and
    `Destroy`.

    Callbacks, interval handles and audio handles are opaque identifiers. The
    host's effects are kept as engine state: `liveTimers` holds the interval
    handles that have been started and not cleared, `documentListeners` the
    (event type, handler) pairs currently attached to the document. */
module World {

  import opened Wrappers
  import opened Vectors
  import ArrayHelpers

  /** A callback (an `onLoad`, a listener, a collision handler). */
  type HandlerId = nat
  /** A handle returned by `window.setInterval`. */
  type TimerId = nat
  /** An audio element. */
  type AudioId = nat

  /** Which constructor made an entity: `RawImage` or one of its subclasses. */
  datatype Kind = RawImageKind | SpriteKind | SquareKind | TextKind

  /** A drawable entity (`RawImage`, `Sprite`, `Square`, `Text`), one record
      with the union of their fields. */
  class Drawable {
    const kind: Kind
    var tag: string
    var hidden: bool
    var active: bool
    var interval: seq<TimerId>
    var position: Vector3
    var size: Vector3
    var flip: Vector3
    var rotation: Vector3
    var collisionStart: Vector3
    var collisionEnd: Vector3
    var collideWithTag: map<string, HandlerId>
    var rigidbody: bool
    var velocity: Vector3
    var acceleration: Vector3
    var isGUI: bool
    var stroke: bool
    // Sprite
    var image: Option<string>
    var animationOn: map<string, seq<string>>
    var animationSpeed: real
    var animationFrame: nat
    // Square and Text
    var color: string
    // Text
    var text: string
    var font: string

    /** The state the `RawImage` constructor leaves behind. */
    ghost predicate BaseState(x: real, y: real, w: real, h: real, rotZ: real,
                              flipX: real, flipY: real, timers: seq<TimerId>)
      reads this
    {
      BaseFlags(timers) && BaseGeometry(x, y, w, h, rotZ, flipX, flipY)
    }

    /** Visible, active, tagged "none", no collision handlers, rigidbody off. */
    ghost predicate BaseFlags(timers: seq<TimerId>)
      reads this
    {
      && tag == "none" && !hidden && active
      && interval == timers
      && collideWithTag == map[]
      && !rigidbody && !isGUI && !stroke
    }

    /** The box, at rest. The collision box starts as the size: in the source
        `collisionEnd` is the `size` object itself. */
    ghost predicate BaseGeometry(x: real, y: real, w: real, h: real, rotZ: real,
                                 flipX: real, flipY: real)
      reads this
    {
      && position == Vector3(x, y, 0.0)
      && size == Vector3(w, h, 0.0)
      && flip == Vector3(flipX, flipY, 0.0)
      && rotation == Vector3(0.0, 0.0, rotZ)
      && collisionStart == Origin
      && collisionEnd == size
      && velocity == Origin && acceleration == Origin
    }

    /** The field initialisations of the `RawImage` constructor. */
    method InitBase(x: real, y: real, w: real, h: real, rotZ: real,
                    flipX: real, flipY: real, timers: seq<TimerId>)
      modifies this
      ensures BaseState(x, y, w, h, rotZ, flipX, flipY, timers)
    {
      InitFlags(timers);
      InitGeometry(x, y, w, h, rotZ, flipX, flipY);
    }

    method InitFlags(timers: seq<TimerId>)
      modifies this`tag, this`hidden, this`active, this`interval, this`collideWithTag,
               this`rigidbody, this`isGUI, this`stroke
      ensures BaseFlags(timers)
    {
      tag, hidden, active := "none", false, true;
      interval := timers;
      collideWithTag := map[];
      rigidbody, isGUI, stroke := false, false, false;
    }

    method InitGeometry(x: real, y: real, w: real, h: real, rotZ: real, flipX: real, flipY: real)
      modifies this`position, this`size, this`flip, this`rotation, this`collisionStart,
               this`collisionEnd, this`velocity, this`acceleration
      ensures BaseGeometry(x, y, w, h, rotZ, flipX, flipY)
    {
      position := Vector3(x, y, 0.0);
      size := Vector3(w, h, 0.0);
      flip := Vector3(flipX, flipY, 0.0);
      rotation := Vector3(0.0, 0.0, rotZ);
      collisionStart := Origin;
      collisionEnd := size;
      velocity, acceleration := Origin, Origin;
    }

    /** The image and animation fields the `Sprite` constructor sets. */
    method InitAnimation(src: string)
      modifies this`image, this`animationOn, this`animationSpeed, this`animationFrame
      ensures image == Some(src) && animationOn == map[] && animationSpeed == 12.0 && animationFrame == 0
    {
      image, animationOn, animationSpeed, animationFrame := Some(src), map[], 12.0, 0;
    }

    /** `new RawImage(...)`: starts the rigidbody interval (whose handle is
        `rigidTimer`) and registers the entity in the active scene. */
    constructor RawImage(engine: Engine, x: real, y: real, w: real, h: real, rotZ: real,
                         flipX: real, flipY: real, rigidTimer: TimerId)
      requires engine.currentScene != null
      modifies engine.currentScene`rawImageList, engine`liveTimers
      ensures kind == RawImageKind
      ensures BaseState(x, y, w, h, rotZ, flipX, flipY, [rigidTimer])
      ensures engine.liveTimers == old(engine.liveTimers) + {rigidTimer}
      ensures engine.currentScene.rawImageList == old(engine.currentScene.rawImageList) + [this]
    {
      kind := RawImageKind;
      new;
      InitBase(x, y, w, h, rotZ, flipX, flipY, [rigidTimer]);
      engine.liveTimers := engine.liveTimers + {rigidTimer};
      engine.currentScene.rawImageList := engine.currentScene.rawImageList + [this];
    }

    /** `new Sprite(...)`: a raw image that also starts its animation and
        collision intervals and joins the active scene's sprite list. */
    constructor Sprite(engine: Engine, src: string, x: real, y: real, w: real, h: real, rotZ: real,
                       flipX: real, flipY: real, rigidTimer: TimerId, animationTimer: TimerId,
                       collisionTimer: TimerId)
      requires engine.currentScene != null
      modifies engine.currentScene`rawImageList, engine.currentScene`spriteList, engine`liveTimers
      ensures kind == SpriteKind
      ensures BaseState(x, y, w, h, rotZ, flipX, flipY, [rigidTimer, animationTimer, collisionTimer])
      ensures image == Some(src) && animationOn == map[] && animationSpeed == 12.0 && animationFrame == 0
      ensures engine.liveTimers == old(engine.liveTimers) + {rigidTimer, animationTimer, collisionTimer}
      ensures engine.currentScene.rawImageList == old(engine.currentScene.rawImageList) + [this]
      ensures engine.currentScene.spriteList == old(engine.currentScene.spriteList) + [this]
    {
      kind := SpriteKind;
      new;
      InitBase(x, y, w, h, rotZ, flipX, flipY, [rigidTimer, animationTimer, collisionTimer]);
      InitAnimation(src);
      var sc := engine.currentScene;
      engine.liveTimers := engine.liveTimers + {rigidTimer, animationTimer, collisionTimer};
      sc.rawImageList := sc.rawImageList + [this];
      sc.spriteList := sc.spriteList + [this];
    }

    /** `new Square(...)`: a raw image in the active scene's square list. */
    constructor Square(engine: Engine, x: real, y: real, w: real, h: real, rotZ: real,
                       flipX: real, flipY: real, rigidTimer: TimerId)
      requires engine.currentScene != null
      modifies engine.currentScene`rawImageList, engine.currentScene`squareList, engine`liveTimers
      ensures kind == SquareKind
      ensures BaseState(x, y, w, h, rotZ, flipX, flipY, [rigidTimer])
      ensures color == "#e6e6e6"
      ensures engine.liveTimers == old(engine.liveTimers) + {rigidTimer}
      ensures engine.currentScene.rawImageList == old(engine.currentScene.rawImageList) + [this]
      ensures engine.currentScene.squareList == old(engine.currentScene.squareList) + [this]
    {
      kind := SquareKind;
      new;
      InitBase(x, y, w, h, rotZ, flipX, flipY, [rigidTimer]);
      engine.liveTimers := engine.liveTimers + {rigidTimer};
      engine.currentScene.rawImageList := engine.currentScene.rawImageList + [this];
      color := "#e6e6e6";
      engine.currentScene.squareList := engine.currentScene.squareList + [this];
    }

    /** `new Text(...)`: a raw image of size zero in the active scene's text list. */
    constructor Text(engine: Engine, s: string, x: real, y: real, font: string, color: string,
                     rotZ: real, flipX: real, flipY: real, rigidTimer: TimerId)
      requires engine.currentScene != null
      modifies engine.currentScene`rawImageList, engine.currentScene`textList, engine`liveTimers
      ensures kind == TextKind
      ensures BaseState(x, y, 0.0, 0.0, rotZ, flipX, flipY, [rigidTimer])
      ensures text == s && this.font == font && this.color == color
      ensures engine.liveTimers == old(engine.liveTimers) + {rigidTimer}
      ensures engine.currentScene.rawImageList == old(engine.currentScene.rawImageList) + [this]
      ensures engine.currentScene.textList == old(engine.currentScene.textList) + [this]
    {
      kind := TextKind;
      new;
      InitBase(x, y, 0.0, 0.0, rotZ, flipX, flipY, [rigidTimer]);
      engine.liveTimers := engine.liveTimers + {rigidTimer};
      engine.currentScene.rawImageList := engine.currentScene.rawImageList + [this];
      text, this.color, this.font := s, color, font;
      engine.currentScene.textList := engine.currentScene.textList + [this];
    }
  }

  /** A scene: its name, its load callback, its intervals and listeners, and
      the listings its entities are registered in. */
  class Scene {
    /** Position in the registry, recorded once at construction. */
    const index: nat
    var name: string
    var onLoad: HandlerId
    var interval: seq<TimerId>
    var myInterval: seq<TimerId>
    var eventListener: map<string, seq<HandlerId>>
    /** The property the teardown creates by assigning `currentScene.audio`;
        absent (`None`) until the scene is first unloaded. */
    var audio: Option<seq<AudioId>>
    var audioList: seq<AudioId>
    var rawImageList: seq<Drawable>
    var spriteList: seq<Drawable>
    var squareList: seq<Drawable>
    var textList: seq<Drawable>

    /** `new Scene(name, load)`: an empty scene that appends itself to the
        registry and records its position there (`indexOf` finds it at the
        end, since a new object was in no earlier slot). */
    constructor (engine: Engine, name: string, load: HandlerId)
      requires engine.Valid()
      modifies engine`sceneIndex
      ensures engine.Valid()
      ensures engine.sceneIndex == old(engine.sceneIndex) + [this]
      ensures this !in old(engine.sceneIndex) && index == |old(engine.sceneIndex)|
      ensures this.name == name && onLoad == load
      ensures interval == [] && myInterval == [] && eventListener == map[] && audio == None
      ensures audioList == [] && rawImageList == [] && spriteList == [] && squareList == [] && textList == []
    {
      this.name := name;
      onLoad := load;
      interval, myInterval, eventListener, audio := [], [], map[], None;
      audioList, rawImageList, spriteList, squareList, textList := [], [], [], [], [];
      index := |engine.sceneIndex|;
      new;
      engine.sceneIndex := engine.sceneIndex + [this];
    }
  }

  /** How `LoadScene` was told which scene to activate: a string, a number,
      an object (possibly `null`), or a value of any other type. */
  datatype SceneId = ByName(name: string) | ByIndex(n: int) | ByRef(scene: Scene?) | Untyped

  /** The scene the name loop settles on: the last scene in `scenes` called
      `name`, or `fallback` when none is. */
  function LastNamed(scenes: seq<Scene>, name: string, fallback: Scene?): (r: Scene?)
    reads scenes
    ensures r == fallback || (r in scenes && r.name == name)
  {
    if |scenes| == 0 then fallback
    else if scenes[|scenes| - 1].name == name then scenes[|scenes| - 1]
    else LastNamed(scenes[..|scenes| - 1], name, fallback)
  }

  /** The name loop keeps the old scene exactly when no scene has the name, and
      otherwise picks a scene with that name after which none has it. */
  lemma LastNamedSpec(scenes: seq<Scene>, name: string, fallback: Scene?)
    ensures (forall i :: 0 <= i < |scenes| ==> scenes[i].name != name)
            ==> LastNamed(scenes, name, fallback) == fallback
    ensures (exists i :: 0 <= i < |scenes| && scenes[i].name == name)
            ==> (exists k :: && 0 <= k < |scenes| && LastNamed(scenes, name, fallback) == scenes[k]
                             && scenes[k].name == name
                             && forall j :: k < j < |scenes| ==> scenes[j].name != name)
  {
    if forall i :: 0 <= i < |scenes| ==> scenes[i].name != name {
      LastNamedAbsent(scenes, name, fallback);
    } else {
      var i :| 0 <= i < |scenes| && scenes[i].name == name;
      var k := LastNamedFound(scenes, name, fallback, i);
    }
  }

  lemma {:induction false} LastNamedAbsent(scenes: seq<Scene>, name: string, fallback: Scene?)
    requires forall i :: 0 <= i < |scenes| ==> scenes[i].name != name
    ensures LastNamed(scenes, name, fallback) == fallback
  {
    if |scenes| > 0 {
      var prefix := scenes[..|scenes| - 1];
      assert forall i :: 0 <= i < |prefix| ==> prefix[i] == scenes[i];
      LastNamedAbsent(prefix, name, fallback);
    }
  }

  /** The scene the name loop settles on, when scene `i` has the name, is the
      one at index `k`: the last with that name. */
  lemma {:induction false} LastNamedFound(scenes: seq<Scene>, name: string, fallback: Scene?, i: nat)
    returns (k: nat)
    requires i < |scenes| && scenes[i].name == name
    ensures k < |scenes| && LastNamed(scenes, name, fallback) == scenes[k] && scenes[k].name == name
    ensures forall j :: k < j < |scenes| ==> scenes[j].name != name
  {
    var n := |scenes| - 1;
    if scenes[n].name == name {
      k := n;
    } else {
      var prefix := scenes[..n];
      assert prefix[i] == scenes[i];
      k := LastNamedFound(prefix, name, fallback, i);
      assert prefix[k] == scenes[k];
      assert forall j :: k < j < n ==> prefix[j] == scenes[j];
    }
  }

  /** When no other registered scene shares a scene's name, loading by that
      name (what `Scene.loadScene()` does) selects that very scene. */
  lemma {:induction false} LastNamedUnique(scenes: seq<Scene>, k: nat, fallback: Scene?)
    requires k < |scenes|
    requires forall j :: 0 <= j < |scenes| && j != k ==> scenes[j].name != scenes[k].name
    ensures LastNamed(scenes, scenes[k].name, fallback) == scenes[k]
  {
    var n := |scenes| - 1;
    if k < n {
      LastNamedUnique(scenes[..n], k, fallback);
    }
  }

  /** The scene `LoadScene` activates: by name the last match (the current
      scene when nothing matches), by number the registry slot (`undefined`,
      here `null`, when out of range), by reference the object itself, and
      for any other argument the current scene. */
  function Resolve(scenes: seq<Scene>, current: Scene?, id: SceneId): (r: Scene?)
    reads scenes
    ensures id.ByName? ==> r == current || (r in scenes && r.name == id.name)
    ensures id.ByIndex? ==> (r != null <==> 0 <= id.n < |scenes|)
    ensures id.ByIndex? && r != null ==> r in scenes
    ensures id.ByRef? ==> r == id.scene
    ensures id.Untyped? ==> r == current
  {
    match id
    case ByName(n) => LastNamed(scenes, n, current)
    case ByIndex(n) => if 0 <= n < |scenes| then scenes[n] else null
    case ByRef(s) => s
    case Untyped => current
  }

  /** The interval handles of a list of entities, list order then handle order. */
  function Intervals(list: seq<Drawable>): seq<TimerId>
    reads list
  {
    if |list| == 0 then [] else Intervals(list[..|list| - 1]) + list[|list| - 1].interval
  }

  /** Every handle of every listed entity is among `Intervals(list)`. */
  lemma {:induction false} IntervalsCover(list: seq<Drawable>, d: Drawable, t: TimerId)
    requires d in list && t in d.interval
    ensures t in Intervals(list)
  {
    var n := |list| - 1;
    if list[n] != d {
      assert d in list[..n];
      IntervalsCover(list[..n], d, t);
    }
  }

  /** The running intervals left after `clearInterval` on each of `cancelled`. */
  function Cleared(live: set<TimerId>, cancelled: seq<TimerId>): (r: set<TimerId>)
    ensures forall t :: t in r <==> t in live && t !in cancelled
  {
    live - set t | t in cancelled
  }

  /** The (event type, handler) pairs recorded in a scene's listener map. */
  function Bindings(listeners: map<string, seq<HandlerId>>): set<(string, HandlerId)>
  {
    set t, h | t in listeners && h in listeners[t] :: (t, h)
  }

  /** The engine's global state: the registry, the active scene, and the host
      effects (running intervals, listeners attached to the document). */
  class Engine {
    var sceneIndex: seq<Scene>
    var currentScene: Scene?
    var liveTimers: set<TimerId>
    var documentListeners: set<(string, HandlerId)>

    /** Every registered scene records its own registry position. */
    ghost predicate Valid()
      reads this
    {
      forall i :: 0 <= i < |sceneIndex| ==> sceneIndex[i].index == i
    }

    /** Script start-up: an empty registry, then `currentScene = new Scene("default")`. */
    constructor (defaultLoad: HandlerId)
      ensures Valid()
      ensures |sceneIndex| == 1 && currentScene == sceneIndex[0] && fresh(currentScene)
      ensures currentScene.name == "default" && currentScene.onLoad == defaultLoad
      ensures var sc := currentScene;
              && sc.interval == [] && sc.myInterval == [] && sc.eventListener == map[] && sc.audio == None
              && sc.audioList == [] && sc.rawImageList == [] && sc.spriteList == []
              && sc.squareList == [] && sc.textList == []
      ensures liveTimers == {} && documentListeners == {}
    {
      sceneIndex, currentScene := [], null;
      liveTimers, documentListeners := {}, {};
      new;
      var s := new Scene(this, "default", defaultLoad);
      currentScene := s;
    }

    /** The teardown `LoadScene` applies to the outgoing scene `sc` (nothing
        when there is none): its own intervals and those of every entity in its
        raw-image list are cleared, in that order, as `cancelled` lists them;
        every listener in its map is detached from the document; `audio`,
        `interval`, `spriteList`, `squareList` and `textList` are emptied,
        while `rawImageList`, `audioList`, `myInterval`, the listener map, the
        name and the load callback stay as they were. The registry is kept. */
    twostate predicate TornDown(sc: Scene?, cancelled: seq<TimerId>)
      reads this, sc
    {
      && sceneIndex == old(sceneIndex)
      && (sc != null ==>
            && sc.interval == [] && sc.spriteList == [] && sc.squareList == [] && sc.textList == []
            && sc.audio == Some([])
            && sc.rawImageList == old(sc.rawImageList) && sc.audioList == old(sc.audioList)
            && sc.myInterval == old(sc.myInterval) && sc.eventListener == old(sc.eventListener)
            && sc.name == old(sc.name) && sc.onLoad == old(sc.onLoad))
      && cancelled == (if sc == null then [] else old(sc.interval) + old(Intervals(sc.rawImageList)))
      && liveTimers == Cleared(old(liveTimers), cancelled)
      && documentListeners
         == old(documentListeners) - (if sc == null then {} else Bindings(old(sc.eventListener)))
    }

    /** `LoadScene(id)`. First the active scene, if any, is torn down as
        `TornDown` describes (its audio elements are also paused). Then `id` is
        resolved and the resulting scene's `onLoad` runs if there is a
        resulting scene. `cancelled` lists the cleared interval handles in
        clearing order and `loaded` the callback that ran. */
    method LoadScene(id: SceneId) returns (cancelled: seq<TimerId>, loaded: Option<HandlerId>)
      requires Valid()
      modifies this`currentScene, this`liveTimers, this`documentListeners, currentScene
      ensures Valid() && TornDown(old(currentScene), cancelled)
      ensures currentScene == Resolve(sceneIndex, old(currentScene), id)
      ensures loaded == if currentScene == null then None else Some(currentScene.onLoad)
    {
      cancelled := [];
      var sc := currentScene;
      if sc != null {
        cancelled := Unload(sc);
      }
      var next := currentScene;
      match id {
        case ByName(n) =>
          next := FindNamed(n);
        case ByIndex(n) =>
          next := if 0 <= n < |sceneIndex| then sceneIndex[n] else null;
        case ByRef(s) =>
          next := s;
        case Untyped =>
      }
      currentScene := next;
      loaded := if currentScene == null then None else Some(currentScene.onLoad);
    }

    /** The teardown half of `LoadScene`, applied to the outgoing scene. */
    method Unload(sc: Scene) returns (cancelled: seq<TimerId>)
      modifies this`liveTimers, this`documentListeners, sc`audio, sc`interval, sc`spriteList,
               sc`squareList, sc`textList
      ensures sc.interval == [] && sc.spriteList == [] && sc.squareList == [] && sc.textList == []
      ensures sc.audio == Some([])
      ensures cancelled == old(sc.interval) + Intervals(sc.rawImageList)
      ensures liveTimers == Cleared(old(liveTimers), cancelled)
      ensures documentListeners == old(documentListeners) - Bindings(sc.eventListener)
    {
      cancelled := sc.interval;
      var i := 0;
      while i < |sc.rawImageList|
        invariant 0 <= i <= |sc.rawImageList|
        invariant cancelled == sc.interval + Intervals(sc.rawImageList[..i])
      {
        assert sc.rawImageList[..i + 1][..i] == sc.rawImageList[..i];
        cancelled := cancelled + sc.rawImageList[i].interval;
        i := i + 1;
      }
      assert sc.rawImageList[..i] == sc.rawImageList;
      liveTimers := Cleared(liveTimers, cancelled);
      documentListeners := documentListeners - Bindings(sc.eventListener);
      sc.audio := Some([]);
      sc.interval := [];
      sc.spriteList := [];
      sc.squareList := [];
      sc.textList := [];
    }

    /** The name loop of `LoadScene`: every registered scene called `name`
        replaces the candidate in turn, starting from the active scene. */
    method FindNamed(name: string) returns (next: Scene?)
      ensures next == LastNamed(sceneIndex, name, currentScene)
    {
      next := currentScene;
      var i := 0;
      while i < |sceneIndex|
        invariant 0 <= i <= |sceneIndex|
        invariant next == LastNamed(sceneIndex[..i], name, currentScene)
      {
        assert sceneIndex[..i + 1][..i] == sceneIndex[..i];
        if sceneIndex[i].name == name {
          next := sceneIndex[i];
        }
        i := i + 1;
      }
      assert sceneIndex[..i] == sceneIndex;
    }

    /** `AddEventListener(type, fn)`: appends `fn` to the active scene's list for
        `type`, starting a one-element list when there is none, and attaches it
        to the document. With no active scene the source throws. */
    method AddEventListener(eventType: string, fn: HandlerId)
      requires currentScene != null
      modifies currentScene`eventListener, this`documentListeners
      ensures var old_ := old(currentScene.eventListener);
              currentScene.eventListener
                == old_[eventType := if eventType in old_ then old_[eventType] + [fn] else [fn]]
      ensures documentListeners == old(documentListeners) + {(eventType, fn)}
    {
      var listeners := currentScene.eventListener;
      if eventType in listeners {
        currentScene.eventListener := listeners[eventType := listeners[eventType] + [fn]];
      } else {
        currentScene.eventListener := listeners[eventType := [fn]];
      }
      documentListeners := documentListeners + {(eventType, fn)};
    }

    /** `RemoveEventListener(type, fn)`: the filtered copy of the stored list is
        computed and dropped, so the scene's map keeps `fn`; the document
        listener is detached only when the map has an entry for `type` (otherwise
        the source's call on `undefined` throws first and the error is
        swallowed), and nothing happens without an active scene. */
    method RemoveEventListener(eventType: string, fn: HandlerId)
      modifies this`documentListeners
      ensures documentListeners
              == if currentScene != null && eventType in currentScene.eventListener
                 then old(documentListeners) - {(eventType, fn)}
                 else old(documentListeners)
    {
      if currentScene != null && eventType in currentScene.eventListener {
        var filtered := ArrayHelpers.Remove(currentScene.eventListener[eventType], fn);
        documentListeners := documentListeners - {(eventType, fn)};
      }
    }

    /** `Destroy(obj)`: the active scene's sprite list without `obj`. The other
        listings, and the entity's intervals, are left alone. */
    method Destroy(obj: Drawable)
      requires currentScene != null
      modifies currentScene`spriteList
      ensures currentScene.spriteList == ArrayHelpers.Remove(old(currentScene.spriteList), obj)
    {
      currentScene.spriteList := ArrayHelpers.Remove(currentScene.spriteList, obj);
    }

    /** `window.onload`: switches to the second registered scene when there is
        one besides the default scene, and otherwise does nothing. */
    method WindowOnLoad() returns (cancelled: seq<TimerId>, loaded: Option<HandlerId>)
      requires Valid()
      modifies this`currentScene, this`liveTimers, this`documentListeners, currentScene
      ensures Valid() && sceneIndex == old(sceneIndex)
      ensures |sceneIndex| > 1 ==>
                && TornDown(old(currentScene), cancelled)
                && currentScene == sceneIndex[1] && loaded == Some(sceneIndex[1].onLoad)
      ensures |sceneIndex| <= 1 ==>
                && cancelled == [] && loaded == None && unchanged(this)
                && (old(currentScene) != null ==> unchanged(old(currentScene)))
    {
      cancelled, loaded := [], None;
      if |sceneIndex| > 1 {
        cancelled, loaded := LoadScene(ByIndex(1));
      }
    }

    /** `scene.loadScene()`: loads by the scene's name, not by reference. */
    method LoadSceneOf(scene: Scene) returns (cancelled: seq<TimerId>, loaded: Option<HandlerId>)
      requires Valid()
      modifies this`currentScene, this`liveTimers, this`documentListeners, currentScene
      ensures Valid() && TornDown(old(currentScene), cancelled)
      ensures currentScene == Resolve(sceneIndex, old(currentScene), ByName(old(scene.name)))
      ensures loaded == if currentScene == null then None else Some(currentScene.onLoad)
    {
      cancelled, loaded := LoadScene(ByName(scene.name));
    }
  }

  /** Switching to another scene and back finds the first scene active again
      with empty sprite, square and text lists (nothing comes back), while its
      raw-image list, which the teardown never clears, still holds every
      entity it held before; the intervals of those entities, and of the scene
      itself, are no longer running. */
  method SwitchAwayAndBack(engine: Engine, a: Scene, b: Scene)
    requires engine.Valid() && engine.currentScene == a && a != b
    modifies engine`currentScene, engine`liveTimers, engine`documentListeners, a, b
    ensures engine.currentScene == a
    ensures a.spriteList == [] && a.squareList == [] && a.textList == []
    ensures a.rawImageList == old(a.rawImageList)
    ensures forall t :: t in old(a.interval) ==> t !in engine.liveTimers
    ensures forall t :: t in old(Intervals(a.rawImageList)) ==> t !in engine.liveTimers
  {
    var c1, l1 := engine.LoadScene(ByRef(b));
    assert c1 == old(a.interval) + old(Intervals(a.rawImageList));
    assert forall t :: t in c1 ==> t !in engine.liveTimers;
    label Away:
    var c2, l2 := engine.LoadScene(ByRef(a));
    assert engine.liveTimers == Cleared(old@Away(engine.liveTimers), c2);
  }
}
