# Stanford Bunny demo: the event path, the camera, textures and segments, in Dafny

This project models the logic at the heart of a small OpenGL teaching demo, a Blinn-Phong
viewer for the Stanford bunny. It has six parts:

- **Input translation** (`BaseApp.dfy`, module `BaseApp`). GLFW reports key presses, mouse
  buttons, pointer motion and scrolling. BaseApp's callbacks turn each report into an
  `Event` whose name spells the report out (`kbd_A_SHIFT_down`, `mouse_btn_left_up`,
  `mouse_pointer`) and hand it to the application. The key name, key value, action name,
  button name and modifier name helpers are pure functions. The callbacks are methods of a
  `Callbacks` class that holds the shared cursor position.
- **Events** (`Event.dfy`, module `Events`). A class with a name, a window, a type tag fixed
  by the constructor used, and one payload field per type. The payload getters require the
  matching tag.
- **Application** (`App.dfy`, module `Application`). Four lighting switches flipped by the
  keys L, S, D and A. Every event is then forwarded to the camera.
- **Orbit camera** (`Turntable.dfy`, module `Turntable`). The turntable manipulator's
  distance, angle and elevation, moved by the UP/DOWN keys and by a left-button drag. The
  drag clamps the elevation; `bump` does not.
- **Textures** (`Texture.dfy`, module `Textures`). The format tables, the opacity test, the
  channel-count switch of the file loaders, and the `_empty` flag that decides when
  mipmaps are built. OpenGL stays abstract: a texture records the integer parameters set
  on it and counts its glGenerateMipmap calls.
- **Closest point on a segment** (`Line.dfy`, module `Lines`). `Line::closestPoint` over
  exact reals, with proofs that the result lies on the segment and is nearest to the query
  point.

`Vectors.dfy` holds the small vector algebra and `Wrappers.dfy` an `Option` type. Each
stateful class has a specification function: `TurntableManipulator.State()` and `Step`,
`App.Switched()` and `SwitchStep`, `Texture.Life()` and `Created`/`Updated`/
`MipMapsGenerated`. Each method's postcondition ties the new state to that function of the
old state. The lemmas then prove what the source promises about those functions.

Doubles and floats are exact reals. GLFW key, action, button and modifier codes are the
integer constants of GLFW 3's `glfw3.h`, and OpenGL enumerants are the values of the
OpenGL registry. Neither header is part of this model. An `assert` in the source becomes a
`None` result, or a precondition on the `Texture` constructor.

## Model

| member | source | states |
|---|---|---|
| Events.OrdinalRoundTrip | src/Event.h:25-33 | The seven event types are numbered 0 to 6 one-to-one, STANDARD 0 and MSG 6. |
| Events.Event.Standard | src/Event.cpp:5-10 | The name/window constructor sets the STANDARD tag. |
| Events.Event.With1D | src/Event.cpp:12-18 | The double constructor stores the payload and sets the 1D tag. |
| Events.Event.With2D | src/Event.cpp:20-26 | The dvec2 constructor stores the payload and sets the 2D tag. |
| Events.Event.With3D | src/Event.cpp:28-34 | The dvec3 constructor stores the payload and sets the 3D tag. |
| Events.Event.With4D | src/Event.cpp:36-42 | The dvec4 constructor stores the payload and sets the 4D tag. |
| Events.Event.WithMat4 | src/Event.cpp:45-51 | The dmat4 constructor stores the payload and sets the MAT4 tag. |
| Events.Event.WithMessage | src/Event.cpp:53-59 | The string constructor stores the payload and sets the MSG tag. |
| Events.Event.Rename | src/Event.cpp:65-68 | rename replaces the name; its frame leaves the tag, window and payloads unchanged. |
| Events.Event.GetName | src/Event.cpp:70-73 | Reads the name, without a contract of its own; ConstructThenRead states what it returns. |
| Events.Event.GetType | src/Event.cpp:75-78 | Reads the type tag, without a contract of its own; ConstructThenRead states what it returns. |
| Events.Event.GetWindow | src/Event.cpp:80-83 | Reads the window, without a contract of its own; ConstructThenRead states what it returns. |
| Events.Event.Get1DData | src/Event.cpp:85-88 | Reads the double payload of a 1D event, without a contract of its own. |
| Events.Event.Get2DData | src/Event.cpp:90-93 | Reads the dvec2 payload of a 2D event, without a contract of its own; ConstructThenRead states what it returns. |
| Events.Event.Get3DData | src/Event.cpp:95-98 | Reads the dvec3 payload of a 3D event, without a contract of its own. |
| Events.Event.Get4DData | src/Event.cpp:100-103 | Reads the dvec4 payload of a 4D event, without a contract of its own. |
| Events.Event.GetMat4Data | src/Event.cpp:105-108 | Reads the dmat4 payload of a MAT4 event, without a contract of its own. |
| Events.Event.GetMsgData | src/Event.cpp:110-113 | Reads the string payload of a MSG event, without a contract of its own. |
| Events.ConstructThenRead | src/Event.cpp:20-26 | After the 2D constructor and a rename, getName gives the new name, and getType, getWindow and get2DData give what was constructed. |
| Turntable.Clamp | src/TurntableManipulator.cpp:46 | glm::clamp lies in [lo, hi], is x inside the range, and is the nearer bound outside it. |
| Turntable.TurntableManipulator.constructor | src/TurntableManipulator.cpp:11-17 | The constructor sets distance, around and up, and clears mouseDown. |
| Turntable.TurntableManipulator.Default | src/TurntableManipulator.h:13 | The default arguments are 1.5, 0.3 and 0.5. |
| Turntable.TurntableManipulator.Bump | src/TurntableManipulator.cpp:19-22 | bump adds to around and up and changes nothing else. |
| Turntable.TurntableManipulator.OnEvent | src/TurntableManipulator.cpp:24-50 | The new state is Step of the old state, the event's name and its 2D payload. |
| Turntable.TurntableManipulator.SetCenterPosition | src/TurntableManipulator.cpp:66-68 | setCenterPosition overwrites only center. |
| Turntable.DollyKeys | src/TurntableManipulator.cpp:28-33 | UP (down or repeat) moves exactly 0.01 closer and DOWN 0.01 away, with no other field changed; UP then DOWN restores the state. |
| Turntable.LeftButton | src/TurntableManipulator.cpp:34-40 | A left press sets mouseDown and records the position; a release clears mouseDown only and keeps lastMousePos. |
| Turntable.PointerWithoutButton | src/TurntableManipulator.cpp:41-42 | Pointer motion without the button held changes nothing. |
| Turntable.DragEffect | src/TurntableManipulator.cpp:41-49 | A drag with a non-zero delta adds dx*0.0001 to around and sets up to the clamped sum, which lies in [-pi/2+0.2, pi/2-0.2]; a zero delta changes nothing. |
| Turntable.ElevationBounds | src/TurntableManipulator.cpp:46 | The clamp bounds are symmetric, about 1.37 radians either side of the horizon. |
| Turntable.DragMeasuredFromPress | src/TurntableManipulator.cpp:43-47 | Two drag samples in a row are both measured from the press position. |
| Turntable.OtherNamesIgnored | src/TurntableManipulator.cpp:28-49 | Every other name, kbd_UP_SHIFT_down included, changes nothing: matching is exact. |
| Turntable.BumpUnclamped | src/TurntableManipulator.cpp:19-22 | bump can take the elevation past the drag bounds. |
| Turntable.RunKeepsElevation | src/TurntableManipulator.cpp:24-50 | Any sequence of events keeps an elevation that starts inside the drag bounds inside them. |
| Turntable.RunUpPresses | src/TurntableManipulator.cpp:28-30 | n UP events bring the camera exactly n*0.01 closer and change nothing else. |
| Turntable.RunAppend | src/TurntableManipulator.cpp:24-50 | Handling a concatenation of event sequences is handling one, then the other. |
| Application.Toggle | src/App.cpp:64-69 | A toggled switch is 0.0 or 1.0, and is 0.0 exactly when it was 1.0. |
| Application.ToggleTwice | src/App.cpp:64-69 | Toggling twice restores exactly the values 0.0 and 1.0. |
| Application.SwitchKeys | src/App.cpp:59-88 | L negates drawLightVector; S, D and A each flip their own switch and leave the others alone. |
| Application.OtherNamesKeepSwitches | src/App.cpp:56-88 | R and every name outside the four switch keys change no switch. |
| Application.PressTwice | src/App.cpp:59-88 | From 0.0/1.0 switches, the same key twice restores every switch. |
| Application.SwitchStepKeepsOnOff | src/App.cpp:63-88 | Switches at 0.0/1.0 stay at 0.0/1.0 after any event. |
| Application.PressTwiceFromOtherValue | src/App.cpp:63-88 | For each of the specular, diffuse and ambient switches: from any value other than 0.0 and 1.0, two presses of its key leave it at 0.0, not the starting value, and leave the other switches as they were. |
| Application.App.constructor | src/App.cpp:31-37 | The camera starts at (3, 0.3, 0.5) around (-0.3, 0.8, 0), the light vector is hidden, and all lights are on. |
| Application.App.OnEvent | src/App.cpp:51-92 | The switches become SwitchStep of the event name, and the camera takes exactly one Step with the event. |
| BaseApp.KeyName | src/BaseApp.cpp:199-330 | getKeyName's table, without a contract of its own: the GLFW name of each listed key and "" for any other code. DispatchKeyNameUnique, KeyNameCollision and EmptyNameParts state its properties. |
| BaseApp.KeyValue | src/BaseApp.cpp:332-425 | getKeyValue gives one character for a letter key and at most one for any key. |
| BaseApp.LetterValues | src/BaseApp.cpp:338-373 | A letter key types its lower-case letter, or with SHIFT its upper-case letter, which equals the key's name. |
| BaseApp.SymbolValuesIgnoreMods | src/BaseApp.cpp:374-422 | Non-letter keys type the same whatever the modifiers; LEFT_BRACKET types "]" and RIGHT_BRACKET "[". |
| BaseApp.UntypedKeys | src/BaseApp.cpp:365-420 | For every key and modifier set: the four arrows (RIGHT to UP), the function keys F1 to F25, ESCAPE, UNKNOWN and every code getKeyName has no name for type nothing. |
| BaseApp.ActionName | src/BaseApp.cpp:427-440 | PRESS gives "down", RELEASE "up" and REPEAT "repeat", each only for that action; names have no underscore. |
| BaseApp.ModsName | src/BaseApp.cpp:461-474 | The modifier name has no underscore and is empty exactly when none of the four modifier bits is set. |
| BaseApp.ModsNameOrder | src/BaseApp.cpp:461-474 | Modifier names come in the fixed order SHIFT, CTRL, ALT, SUPER, unseparated. |
| BaseApp.IntToStringRoundTrip | src/BaseApp.cpp:453-455 | The decimal numeral a stringstream writes for an int reads back as that int. |
| BaseApp.ButtonName | src/BaseApp.cpp:442-459 | Every button name starts "mouse_btn_" with no underscore after it; left, right and middle are named exactly for those buttons. |
| BaseApp.ButtonNumber | src/BaseApp.cpp:452-455 | The part after "mouse_btn_" parses back to the button exactly for buttons without a name of their own. |
| BaseApp.ButtonNameInjective | src/BaseApp.cpp:442-459 | No two buttons share a name. |
| BaseApp.KeyEventName | src/BaseApp.cpp:119-127 | The name key_callback composes, without a contract of its own: "kbd_", the key name, "_" and the modifier names when a bit is set, "_" and the action name. KeyEventExact and KeyEventNameStart state its properties. |
| BaseApp.ButtonEventName | src/BaseApp.cpp:159-165 | The name mouse_button_callback composes, without a contract of its own: the button name, "_" and the modifier names when a bit is set, "_" and the action name. ButtonEventExact and ButtonEventNameStart state its properties. |
| BaseApp.ComposeButtonName | src/BaseApp.cpp:159-165 | Appending the parts step by step, as mouse_button_callback does, yields ButtonEventName. |
| BaseApp.KeyEventExact | src/BaseApp.cpp:119-127 | A key report gets the name of a camera or switch key with a known action exactly when it is that key, that action, and no modifier bit. |
| BaseApp.ButtonEventExact | src/BaseApp.cpp:159-165 | A button report gets the name of a named button with a known action exactly when it is that button, that action, and no modifier bit. |
| BaseApp.KeyEventNameStart | src/BaseApp.cpp:119 | Key event names start "kbd_", so the camera never reads a key event's 2D payload. |
| BaseApp.ButtonEventNameStart | src/BaseApp.cpp:159 | Button event names start "mouse_btn_", so they are never "mouse_pointer" or a key name. |
| BaseApp.CameraKeyNames | src/BaseApp.cpp:119-127 | A key report is named kbd_UP_down/repeat exactly for UP pressed or repeated without modifiers, likewise DOWN, and never a mouse name. |
| BaseApp.CameraKeyDispatch | src/BaseApp.cpp:119-131 | For every key report, the camera step on its name is KeyCameraEffect: UP or DOWN held without modifiers dollies by 0.01, and nothing else moves it. |
| BaseApp.CameraButtonNames | src/BaseApp.cpp:159-165 | A button report is named mouse_btn_left_down (or _up) exactly for the left button pressed (released) without modifiers. |
| BaseApp.CameraButtonDispatch | src/BaseApp.cpp:159-169 | For every button report, the camera step on its name is ButtonCameraEffect: only an unmodified left press or release does anything. |
| BaseApp.SwitchKeyDispatch | src/BaseApp.cpp:119-131 | For every key report, the switch step on its name is KeySwitchEffect: only L, S, D or A pressed without modifiers flips a switch. |
| BaseApp.ButtonNamesKeepSwitches | src/BaseApp.cpp:159-169 | No button report flips a switch. |
| BaseApp.EmptyNameParts | src/BaseApp.cpp:328 | An unlisted key code has the empty name, giving "kbd__down"; an unnamed modifier bit gives "kbd_A__down". |
| BaseApp.KeyNameCollision | src/BaseApp.cpp:119-127 | LEFT with SHIFT and LEFT_SHIFT alone both give "kbd_LEFT_SHIFT_down". |
| BaseApp.ModifiedKeyName | src/BaseApp.cpp:119-127 | The modifier names sit between the key and the action: "kbd_A_SHIFTCTRL_repeat". |
| BaseApp.Callbacks.constructor | src/BaseApp.cpp:13 | The shared cursor position starts at (0, 0). |
| BaseApp.Callbacks.KeyCallback | src/BaseApp.cpp:117-132 | key_callback sends one MSG event with the composed name and the typed character; the switches change by KeySwitchEffect and the camera by KeyCameraEffect. |
| BaseApp.Callbacks.MouseButtonCallback | src/BaseApp.cpp:157-170 | mouse_button_callback sends one 2D event at the stored cursor position; the switches stay and the camera changes by ButtonCameraEffect. |
| BaseApp.Callbacks.CursorPositionCallback | src/BaseApp.cpp:172-181 | cursor_position_callback stores (x, y) and sends "mouse_pointer" there; the camera drags only while the button is held. |
| BaseApp.Callbacks.ScrollCallback | src/BaseApp.cpp:191-197 | scroll_callback sends "mouse_scroll" with the offsets; neither the camera nor the switches change. |
| Textures.DataType | src/Texture.cpp:624-652 | determineDataType answers UNSIGNED_BYTE, UNSIGNED_SHORT or FLOAT, and only for formats getExternalFormat also knows; any other format fails its assert. |
| Textures.ExternalFormat | src/Texture.cpp:654-682 | getExternalFormat answers RED, LUMINANCE_ALPHA, RGB or RGBA, a layout of 1 to 4 components; any other format fails its assert. |
| Textures.IsOpaque | src/Texture.cpp:214-242 | isOpaque holds for formats whose pixel layout is RED or RGB, and fails for those whose layout is RGBA or LUMINANCE_ALPHA. |
| Textures.ChannelFormatAsWritten | src/Texture.cpp:486-504 | The channel switch as written has a format exactly for 1 to 4 channels, always one stored as unsigned bytes; any other count fails its assert. |
| Textures.ChannelFormat | src/Texture.cpp:366-384 | The channel switch with the break restored has a format exactly for 1 to 4 channels, always one stored as unsigned bytes. |
| Textures.TableDomains | src/Texture.cpp:624-682 | Every internal format determineDataType accepts is accepted by getExternalFormat; LUMINANCE_ALPHA and RGB are accepted only by the latter. |
| Textures.OpaqueMatchesExternalFormat | src/Texture.cpp:214-242 | For formats the tables know, isOpaque holds exactly when the external format is not RGBA or LUMINANCE_ALPHA, that is, has an odd number of components. |
| Textures.TwoChannelsFallThrough | src/Texture.cpp:486-504 | As written, a two-channel image gets RGB8: three components and opaque. |
| Textures.ChannelFormatMatchesImage | src/Texture.cpp:366-384 | With the break restored, exactly 1 to 4 channels have a format; it holds unsigned bytes, has as many components as the image has channels, and is opaque exactly for 1 or 3 channels. |
| Textures.EmptyUntilUpdated | src/Texture.cpp:154-156 | A texture is empty after a sequence of operations exactly when it was created empty and none of them was an update. |
| Textures.EmptyNeverBuilds | src/Texture.cpp:165-176 | An empty, never-updated texture never gets mipmaps, however often they are requested. |
| Textures.NoRequestNoBuilds | src/Texture.cpp:158-160 | Without auto-generation and with one level, no operation builds mipmaps. |
| Textures.BuildsNeverDecrease | src/Texture.cpp:103-176 | The mipmap build count never decreases. |
| Textures.Texture.constructor | src/Texture.cpp:14-110 | The texture is empty exactly when bytes[0] is null, builds mipmaps at once exactly when it has data and auto-generation is on, and gets the default wrap and filter parameters. |
| Textures.Texture.Update | src/Texture.cpp:112-163 | update stores the new formats, clears the empty flag, and builds mipmaps if auto-generation is on. |
| Textures.Texture.GenerateMipMaps | src/Texture.cpp:165-176 | generateMipMaps builds only for a non-empty texture with more than one level. |
| Textures.Texture.SetTexParameteri | src/Texture.cpp:323-332 | Sets one integer parameter and nothing else. |
| Textures.Texture.SetFileName | src/Texture.cpp:184-187 | Sets the file name and nothing else. |
| Textures.CreateEmpty | src/Texture.cpp:345-350 | createEmpty succeeds exactly for a supported target and a format both tables know; the texture is empty, has no mipmaps and takes its formats from the tables. |
| Textures.CreateFromMemory | src/Texture.cpp:467-472 | createFromMemory succeeds exactly for a supported target and keeps the caller's formats. |
| Textures.Create2DTextureFromFile | src/Texture.cpp:474-512 | Loading succeeds exactly for a loaded image with 1 to 4 channels; the 2D texture is non-empty, with a format of as many components as channels, and has mipmaps exactly when they were asked for. |
| Textures.CreateCubeMapFromFiles | src/Texture.cpp:352-403 | Succeeds exactly when all six faces load and resolve to face 0's format; the size is the last face's. |
| Lines.ClosestPoint | src/Line.cpp:67-110 | closestPoint returns the point of the segment at ClosestParameter. |
| Lines.ClosestPointOnSegment | src/Line.cpp:80-109 | The result is start + s*(end - start) for some s in [0, 1]. |
| Lines.ClosestEndpoint | src/Line.cpp:87-109 | Outside the in-segment branch, the distance comparison picks start when t < 0 and end when t > the squared length. |
| Lines.ClosestPointAtEnds | src/Line.cpp:80-84 | Both end points are their own closest points. |
| Lines.ClosestPointIsNearest | src/Line.cpp:67-110 | No point of the segment is nearer to the query point than the result. |

## Left out

- Window, context and run-loop setup, callback registration, window size and position tracking, and error_callback (src/BaseApp.cpp:15-111, 134-155): GLFW I/O.
- cursor_enter_callback (src/BaseApp.cpp:183-189): its name expression adds `entered` to a string literal's address before the `?:` is applied, so it is not the `entered`/`left` choice it looks like. It is not modelled.
- BaseApp::onEvent is an empty virtual method; the callbacks call `App.OnEvent` directly, because App is the subclass the window's user pointer leads to.
- BaseApp.Callbacks.KeyCallback: the scancode is accepted and not used, as in the source.
- Events getters: the C++ getters do not check the type tag, and a mismatched getter reads an unset field. Here each payload getter requires the matching tag.
- Events.Event.Rename: its postcondition names only the new name; the `modifies this`name` frame carries "nothing else changes".
- Turntable.TurntableManipulator.constructor: center and lastMousePos are left unset, as in the C++, so nothing is stated about them.
- Turntable.TurntableManipulator.OnEvent: `length(dxy) != 0.0` is modelled as a non-zero delta vector. The two agree over reals; a float delta whose length underflows to zero is not modelled.
- Float and double rounding: every coordinate, angle and step is an exact real. lastMousePos is a float vec2 fed from a double payload, and repeated 0.01 steps accumulate rounding error; neither is modelled.
- getPos and frame (src/TurntableManipulator.cpp:52-63) and the orbiting light (src/App.cpp:95-104): floating-point trigonometry.
- reloadShaders, onRenderGraphics, the shader uniforms and totalTime (src/App.cpp:42-48, 95-166): GL calls.
- Lines.ClosestPoint: the precondition is a non-zero squared length of end - start, which over reals is the same as start != end. `t`, d0Squared and d1Squared are floats in the source and exact reals here.
- The Line constructor's mesh build and Line::draw (src/Line.cpp:13-65), and Sphere: sqrt-based geometry and GL.
- Texture OpenGL calls (glGenTextures, glTexImage*, glTexSubImage*, glBindTexture, glPixelStorei), bind, getID, save2D, and the float and vector forms of setTexParameter: GL calls. The pixel bytes are reduced to whether bytes[0] is non-null. The glGenerateMipmap calls are counted, and glTexParameteri values are recorded in a map.
- Textures.Texture.Update: the unpack alignment, the row length and the cube-map face only steer the upload, so they are not parameters.
- getName, getFileName, getWidth, getHeight and getHeightToWidthRatio of Texture: plain reads of the fields, or float division.
- Image loading (SOIL): each file's load result is a parameter, and None stands for a failed load. Freeing the image data is not modelled.
- Assertions: a failed assert is a failure (None, or a precondition). With assertions compiled out, the source would carry on. It would return UNSIGNED_BYTE or RGBA from the tables, and format 0 from the channel switch. That behaviour is not modelled.
- Textures.Create2DTextureFromFile and Textures.CreateCubeMapFromFiles use the corrected channel switch; the switch as written is ChannelFormatAsWritten (see Findings). So a two-channel image gets LUMINANCE8_ALPHA8 here where the source gives RGB8.
- Textures.CreateCubeMapFromFiles: the source as written resolves both 2-channel and 3-channel faces to RGB8, so it accepts a cube map that mixes them. This model gives those faces different formats and returns None for such a cube map.
- The rest of App's constructor (src/App.cpp:11-29): the clear colour, the first reloadShaders, loading bunny.obj, and loading the two lighting-ramp textures with NEAREST min and mag filters. These are GL and file I/O.
- isOpaque lists GL_RGBA4 twice; a set holds it once.

## Findings

| source | as written | input that shows it | evidently intended | confidence | as-written member | corrected member |
|---|---|---|---|---|---|---|
| src/Texture.cpp:371-376 (also 491-496) | `case 2` sets LUMINANCE8_ALPHA8 but has no `break`, so it falls into `case 3` and ends as RGB8 | a two-channel (grey and alpha) image file | a two-channel image gets LUMINANCE8_ALPHA8, whose pixel layout (LUMINANCE_ALPHA) has two components | high; not executed | Textures.TwoChannelsFallThrough | Textures.ChannelFormatMatchesImage |
