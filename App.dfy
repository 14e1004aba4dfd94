/**
 * The demo application of src/App.cpp: four lighting switches flipped by named key
 * events, and an orbit camera to which every event is then passed on.
 */
module Application {
  import opened Vectors
  import opened Events
  import opened Turntable

  /** The key events the application itself reacts to. */
  const ReloadKey := "kbd_R_down"
  const LightVectorKey := "kbd_L_down"
  const SpecularKey := "kbd_S_down"
  const DiffuseKey := "kbd_D_down"
  const AmbientKey := "kbd_A_down"

  /** An on/off switch stored as a float: 1.0 turns off, any other value turns on. */
  function Toggle(f: real): (r: real)
    ensures r == 0.0 || r == 1.0
    ensures r == 0.0 <==> f == 1.0
  {
    if f == 1.0 then 0.0 else 1.0
  }

  /** Toggling twice restores exactly the values 0.0 and 1.0, and no other value. */
  lemma ToggleTwice(f: real)
    ensures Toggle(Toggle(f)) == f <==> f == 0.0 || f == 1.0
  {
  }

  /** The application's switches. */
  datatype Switches = Switches(
    drawLightVector: bool, ambientOnOff: real, diffuseOnOff: real, specularOnOff: real)

  /** Every lighting switch holds 0.0 or 1.0. */
  predicate OnOff(s: Switches) {
    (s.ambientOnOff == 0.0 || s.ambientOnOff == 1.0)
    && (s.diffuseOnOff == 0.0 || s.diffuseOnOff == 1.0)
    && (s.specularOnOff == 0.0 || s.specularOnOff == 1.0)
  }

  /**
   * The switch handling of onEvent. R (reload the shaders), L, S and D form one
   * if-else chain; the test for A stands on its own after it.
   */
  function SwitchStep(s: Switches, name: string): Switches {
    var chained :=
      if name == ReloadKey then s
      else if name == LightVectorKey then s.(drawLightVector := !s.drawLightVector)
      else if name == SpecularKey then s.(specularOnOff := Toggle(s.specularOnOff))
      else if name == DiffuseKey then s.(diffuseOnOff := Toggle(s.diffuseOnOff))
      else s;
    if name == AmbientKey then chained.(ambientOnOff := Toggle(chained.ambientOnOff)) else chained
  }

  /** Each key flips its own switch and leaves the others alone. */
  lemma SwitchKeys(s: Switches)
    ensures SwitchStep(s, LightVectorKey) == s.(drawLightVector := !s.drawLightVector)
    ensures SwitchStep(s, SpecularKey) == s.(specularOnOff := if s.specularOnOff == 1.0 then 0.0 else 1.0)
    ensures SwitchStep(s, DiffuseKey) == s.(diffuseOnOff := if s.diffuseOnOff == 1.0 then 0.0 else 1.0)
    ensures SwitchStep(s, AmbientKey) == s.(ambientOnOff := if s.ambientOnOff == 1.0 then 0.0 else 1.0)
  {
  }

  /** Names other than the four switch keys change no switch; R only reloads the shaders. */
  lemma OtherNamesKeepSwitches(s: Switches, name: string)
    requires name !in {LightVectorKey, SpecularKey, DiffuseKey, AmbientKey}
    ensures SwitchStep(s, name) == s
    ensures SwitchStep(s, ReloadKey) == s
  {
  }

  /** From 0.0/1.0 values, pressing the same key twice restores every switch. */
  lemma PressTwice(s: Switches, name: string)
    requires OnOff(s)
    ensures SwitchStep(SwitchStep(s, name), name) == s
  {
    ToggleTwice(s.ambientOnOff);
    ToggleTwice(s.diffuseOnOff);
    ToggleTwice(s.specularOnOff);
  }

  /** Any event keeps the switches at 0.0/1.0 once they are there. */
  lemma SwitchStepKeepsOnOff(s: Switches, name: string)
    requires OnOff(s)
    ensures OnOff(SwitchStep(s, name))
  {
  }

  /**
   * Started from any value other than 0.0 and 1.0, a switch is not restored by two
   * presses of its key: it ends at 0.0, and the other switches are as they were.
   */
  lemma PressTwiceFromOtherValue(s: Switches)
    ensures s.specularOnOff != 0.0 && s.specularOnOff != 1.0 ==>
      SwitchStep(SwitchStep(s, SpecularKey), SpecularKey) == s.(specularOnOff := 0.0)
    ensures s.diffuseOnOff != 0.0 && s.diffuseOnOff != 1.0 ==>
      SwitchStep(SwitchStep(s, DiffuseKey), DiffuseKey) == s.(diffuseOnOff := 0.0)
    ensures s.ambientOnOff != 0.0 && s.ambientOnOff != 1.0 ==>
      SwitchStep(SwitchStep(s, AmbientKey), AmbientKey) == s.(ambientOnOff := 0.0)
  {
  }

  class App {
    var drawLightVector: bool
    var ambientOnOff: real
    var diffuseOnOff: real
    var specularOnOff: real
    const turntable: TurntableManipulator

    function Switched(): Switches
      reads this
    {
      Switches(drawLightVector, ambientOnOff, diffuseOnOff, specularOnOff)
    }

    /** The state App's constructor leaves: camera at (3, 0.3, 0.5) around (-0.3, 0.8, 0), all lights on. */
    constructor ()
      ensures Switched() == Switches(false, 1.0, 1.0, 1.0)
      ensures fresh(turntable)
      ensures turntable.State() == CameraState(3.0, 0.3, 0.5, Vec3(-0.3, 0.8, 0.0), false, turntable.lastMousePos)
    {
      var camera := new TurntableManipulator(3.0, 0.3, 0.5);
      camera.SetCenterPosition(Vec3(-0.3, 0.8, 0.0));
      turntable := camera;
      drawLightVector := false;
      ambientOnOff := 1.0;
      diffuseOnOff := 1.0;
      specularOnOff := 1.0;
    }

    /** onEvent: the switch handling, then the event goes to the camera exactly once. */
    method OnEvent(event: Event)
      requires ReadsPosition(turntable.mouseDown, event.name) ==> event.kind == TwoD
      modifies this, turntable
      ensures Switched() == SwitchStep(old(Switched()), event.name)
      ensures turntable.State() == Step(old(turntable.State()), event.name, event.data2D)
    {
      var name := event.GetName();
      if name == ReloadKey {
        // reloadShaders() recompiles the GL program; it has no state in this model.
      } else if name == LightVectorKey {
        drawLightVector := !drawLightVector;
      } else if name == SpecularKey {
        if specularOnOff == 1.0 {
          specularOnOff := 0.0;
        } else {
          specularOnOff := 1.0;
        }
      } else if name == DiffuseKey {
        if diffuseOnOff == 1.0 {
          diffuseOnOff := 0.0;
        } else {
          diffuseOnOff := 1.0;
        }
      }
      if name == AmbientKey {
        if ambientOnOff == 1.0 {
          ambientOnOff := 0.0;
        } else {
          ambientOnOff := 1.0;
        }
      }
      turntable.OnEvent(event);
    }
  }
}
