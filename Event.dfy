/**
 * The input event of src/Event.h and src/Event.cpp: a name, a type tag fixed by the
 * constructor that built it, the window it came from, and one payload. As in the C++,
 * every payload kind has its own field and a constructor sets only the one it carries;
 * the other fields stay unset, which here means "some value nobody chose".
 */
module Events {
  import opened Vectors
  import opened Wrappers

  /** GLFWwindow*, the window an event was raised in; only its identity matters. */
  type Window = nat

  /** Event::EventType. */
  datatype EventType = Standard | OneD | TwoD | ThreeD | FourD | Matrix4 | Message

  /** The enumerator's numeric value as declared in src/Event.h. */
  function Ordinal(t: EventType): (n: nat)
    ensures n <= 6
    ensures t == Standard <==> n == 0
    ensures t == Message <==> n == 6
  {
    match t
    case Standard => 0
    case OneD => 1
    case TwoD => 2
    case ThreeD => 3
    case FourD => 4
    case Matrix4 => 5
    case Message => 6
  }

  /** The enumerator with a given value, if any. */
  function FromOrdinal(n: int): Option<EventType> {
    if n == 0 then Some(Standard)
    else if n == 1 then Some(OneD)
    else if n == 2 then Some(TwoD)
    else if n == 3 then Some(ThreeD)
    else if n == 4 then Some(FourD)
    else if n == 5 then Some(Matrix4)
    else if n == 6 then Some(Message)
    else None
  }

  /** The values 0..6 name the seven event types one-to-one. */
  lemma OrdinalRoundTrip(t: EventType, n: int)
    ensures FromOrdinal(Ordinal(t)) == Some(t)
    ensures FromOrdinal(n).Some? <==> 0 <= n <= 6
    ensures FromOrdinal(n).Some? ==> Ordinal(FromOrdinal(n).value) == n
  {
  }

  class Event {
    var name: string
    var window: Window
    var kind: EventType
    var data1D: real
    var data2D: Vec2
    var data3D: Vec3
    var data4D: Vec4
    var dataMat4: Mat4
    var dataMsg: string

    /** Event(name, window): no payload. */
    constructor Standard(name: string, window: Window)
      ensures this.name == name && this.window == window && kind == EventType.Standard
    {
      this.name := name;
      this.kind := EventType.Standard;
      this.window := window;
    }

    /** Event(name, double, window). */
    constructor With1D(name: string, data: real, window: Window)
      ensures this.name == name && this.window == window && kind == OneD
      ensures data1D == data
    {
      this.name := name;
      this.data1D := data;
      this.kind := OneD;
      this.window := window;
    }

    /** Event(name, dvec2, window). */
    constructor With2D(name: string, data: Vec2, window: Window)
      ensures this.name == name && this.window == window && kind == TwoD
      ensures data2D == data
    {
      this.name := name;
      this.data2D := data;
      this.kind := TwoD;
      this.window := window;
    }

    /** Event(name, dvec3, window). */
    constructor With3D(name: string, data: Vec3, window: Window)
      ensures this.name == name && this.window == window && kind == ThreeD
      ensures data3D == data
    {
      this.name := name;
      this.data3D := data;
      this.kind := ThreeD;
      this.window := window;
    }

    /** Event(name, dvec4, window). */
    constructor With4D(name: string, data: Vec4, window: Window)
      ensures this.name == name && this.window == window && kind == FourD
      ensures data4D == data
    {
      this.name := name;
      this.data4D := data;
      this.kind := FourD;
      this.window := window;
    }

    /** Event(name, dmat4, window). */
    constructor WithMat4(name: string, data: Mat4, window: Window)
      ensures this.name == name && this.window == window && kind == Matrix4
      ensures dataMat4 == data
    {
      this.name := name;
      this.dataMat4 := data;
      this.kind := Matrix4;
      this.window := window;
    }

    /** Event(name, string, window). */
    constructor WithMessage(name: string, data: string, window: Window)
      ensures this.name == name && this.window == window && kind == Message
      ensures dataMsg == data
    {
      this.name := name;
      this.dataMsg := data;
      this.kind := Message;
      this.window := window;
    }

    /** The only mutator: replaces the name; the frame keeps the tag, window and payloads. */
    method Rename(newName: string)
      modifies this`name
      ensures name == newName
    {
      name := newName;
    }

    function GetName(): string
      reads this
    {
      name
    }

    function GetType(): EventType
      reads this
    {
      kind
    }

    function GetWindow(): Window
      reads this
    {
      window
    }

    // A payload getter may only be used on an event of the matching type.

    function Get1DData(): real
      reads this
      requires kind == OneD
    {
      data1D
    }

    function Get2DData(): Vec2
      reads this
      requires kind == TwoD
    {
      data2D
    }

    function Get3DData(): Vec3
      reads this
      requires kind == ThreeD
    {
      data3D
    }

    function Get4DData(): Vec4
      reads this
      requires kind == FourD
    {
      data4D
    }

    function GetMat4Data(): Mat4
      reads this
      requires kind == Matrix4
    {
      dataMat4
    }

    function GetMsgData(): string
      reads this
      requires kind == Message
    {
      dataMsg
    }
  }

  /** A client's view: each getter returns what the matching constructor was given, also after a rename. */
  method ConstructThenRead(n: string, n2: string, p: Vec2, w: Window) returns (e: Event)
    ensures e.GetName() == n2 && e.GetType() == TwoD && e.GetWindow() == w
    ensures Ordinal(e.GetType()) == 2
    ensures e.Get2DData() == p
  {
    e := new Event.With2D(n, p, w);
    assert e.GetName() == n;
    e.Rename(n2);
  }
}
