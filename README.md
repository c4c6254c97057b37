# EGL bring-up of the moving-triangle X11 demo

This project models the start of `main` in `moving-triangle-x11.cpp` in Dafny. That part of `main` brings up EGL as follows:

1. Get the default display.
2. Initialise the display.
3. Bind the OpenGL ES API.
4. Query the frame buffer configurations.
5. Choose one configuration.
6. Create a window surface. If that fails, log the failure and create a pixmap surface instead.
7. Create a context for client version 2.
8. Make the context current.

Every failing call writes one diagnostic to stderr. Every failing call except the window surface's also makes `main` return -1; a failing window surface is followed by the pixmap attempt. After a successful bring-up, `main` spins in an endless loop. The project also models `eglGetErrorStr`, which turns an EGL error code into a sentence.

Modules:

- `Wrappers` (`wrappers.dfy`): `Option`. `None` stands for a null EGL handle.
- `EglErrors` (`egl_errors.dfy`):
  - `Int32` models `EGLint`;
  - the fifteen error codes are `EGL_SUCCESS` (0x3000) through `EGL_CONTEXT_LOST` (0x300E);
  - `Decode` mirrors the `switch`;
  - `Message` holds the fifteen sentences;
  - `ErrorString` is `eglGetErrorStr`. It returns the empty string for any other value.
- `Bringup` (`bringup.dfy`): the EGL library is foreign code, so its answers are an input, a `Driver`. It gives one answer per call: the out-values on success, or the code `eglGetError` then reports. The bring-up is written twice:
  - as the state machine `Next`/`Drive`/`Run` over the phases of the bring-up;
  - as the method `BringUp`, which follows the straight-line code of `main` with its locals and early returns. It is proved to end in exactly the state `Run` reaches, and to return -1 exactly when that state is a failure.

  A `State` records the phase, `main`'s locals, the EGL calls made with the handles passed to them, and the diagnostics written.
- `BringupProperties` (`bringup_properties.dfy`): what the bring-up promises, stated against the driver's answers alone:
  - which stage fails first, and with which code;
  - the window-to-pixmap fallback;
  - which calls are made, and their order;
  - what the failure diagnostic says;
  - the whole state of a successful bring-up.

Notes on the code:

- The display is requested once, with `EGL_DEFAULT_DISPLAY`. Nothing retries with a native display.
- `eglGetErrorStr` knows fifteen codes, `EGL_CONTEXT_LOST` included.
- `eglChooseConfig` can succeed with zero matching configurations. The program does not notice this (`NoMatchingConfigGoesUnnoticed`), and it goes on to pass the never-assigned `config` local to the surface and context calls.
- When both surfaces fail, the stage is reported with the pixmap's code. The window's code was logged and then overwritten.

## Model

| member | source | states |
|---|---|---|
| EglErrors.Value | moving-triangle-x11.cpp:112-157 | every code the `switch` names lies between `EGL_SUCCESS` and `EGL_CONTEXT_LOST` (0x3000..0x300E) |
| EglErrors.Decode | moving-triangle-x11.cpp:112-158 | a value is matched by a `case` exactly when it lies in 0x3000..0x300E, and the matched code has that value |
| EglErrors.Message | moving-triangle-x11.cpp:113-157 | each code's sentence, as the `return` of its `case` spells it, is not empty (its own sentence for each code and distinct sentences for distinct codes are stated by `ErrorStringOfKnownCode` and `MessagesDistinct`) |
| EglErrors.ErrorString | moving-triangle-x11.cpp:111-161 | `eglGetErrorStr`: the result is empty exactly for values outside 0x3000..0x300E, and a non-empty result reads back to the code the value names |
| EglErrors.DecodeValue | moving-triangle-x11.cpp:112-157 | each code's value is matched by that code's own `case` |
| EglErrors.MessageReadBack | moving-triangle-x11.cpp:113-157 | the code can be recovered from its sentence, which is at least ten characters long |
| EglErrors.ErrorStringOfKnownCode | moving-triangle-x11.cpp:111-157 | `eglGetErrorStr` of a known code returns that code's sentence, which is not empty |
| EglErrors.ErrorStringOfUnknownValue | moving-triangle-x11.cpp:158-160 | a value that no `case` names falls out of the `switch` and gets the empty string |
| EglErrors.ErrorStringEmptyIff | moving-triangle-x11.cpp:111-161 | the result is empty exactly for values outside 0x3000..0x300E |
| EglErrors.MessagesDistinct | moving-triangle-x11.cpp:113-157 | different codes have different sentences |
| EglErrors.ErrorStringInjective | moving-triangle-x11.cpp:111-161 | a non-empty result determines the value it was given |
| Bringup.Next | moving-triangle-x11.cpp:33-101 | each stage moves the bring-up strictly forward and keeps the handles later calls pass assigned |
| Bringup.Drive | moving-triangle-x11.cpp:33-101 | running the stages always ends, either current or failed, with the handles assigned |
| Bringup.Run | moving-triangle-x11.cpp:33-101 | the whole bring-up always ends current or failed, with the handles its phase needs assigned (its outcome, calls and successful state are stated by `RunOutcome`, `RunCalls` and `SuccessfulBringUp`) |
| Bringup.BringUp | moving-triangle-x11.cpp:33-106 | `main`'s straight-line code ends in the state of `Run`, and returns -1 exactly when that state is a failure; otherwise it enters the idle loop |
| BringupProperties.FirstFailure | moving-triangle-x11.cpp:33-101 | the stage found fails and every stage before it succeeds; none is found exactly when every stage succeeds |
| BringupProperties.NextOutcome | moving-triangle-x11.cpp:33-101 | a stage that succeeds leads to the next phase; a stage that fails ends the bring-up with its stage and code |
| BringupProperties.DriveOutcome | moving-triangle-x11.cpp:33-101 | from any phase, the run ends at the first later stage to fail, with its code, or is current |
| BringupProperties.RunOutcome | moving-triangle-x11.cpp:33-101 | the bring-up fails at the first failing stage with that stage's code; otherwise it is current on the window surface if that was created, and on the pixmap otherwise |
| BringupProperties.SucceedsIffEveryStageSucceeds | moving-triangle-x11.cpp:33-106 | `main` reaches its idle loop exactly when every stage succeeds, and returns -1 exactly when some stage fails |
| BringupProperties.FailureIsFirstFailingStage | moving-triangle-x11.cpp:33-101 | a failure names a stage that failed, with its code, and every earlier stage succeeded |
| BringupProperties.SurfaceFallback | moving-triangle-x11.cpp:70-84 | once a configuration is chosen, the surface stage fails exactly when both the window and the pixmap surface fail, and then it reports the pixmap's code; a successful run uses the window when it could be created |
| BringupProperties.NextCalls | moving-triangle-x11.cpp:33-101 | a stage appends its own calls, one or (for the surface) two, to the calls made before |
| BringupProperties.DriveCalls | moving-triangle-x11.cpp:33-101 | from any phase, the calls made are those of each stage up to and including the first that fails |
| BringupProperties.RunCalls | moving-triangle-x11.cpp:33-101 | the calls of the bring-up are determined by the driver's answers alone |
| BringupProperties.CallRanksIncrease | moving-triangle-x11.cpp:33-101 | the calls made from any stage on follow the order of the text |
| BringupProperties.CallsInSourceOrder | moving-triangle-x11.cpp:33-101 | the calls are made in the order of the text of `main`, so each call is made at most once |
| BringupProperties.CallRanksFromContains | moving-triangle-x11.cpp:33-101 | a call is made from stage `k` on exactly when the stages between `k` and its own stage succeed (and, for the pixmap, the window failed) |
| BringupProperties.CallMadeIff | moving-triangle-x11.cpp:33-101 | each call is made exactly when every earlier stage succeeded; the pixmap call is made only when the window call failed |
| BringupProperties.DriveLogsFailure | moving-triangle-x11.cpp:33-101 | from any phase, a failure ends with a diagnostic of the last call made with the failure's code, and `error` holds that code |
| BringupProperties.FailureIsLogged | moving-triangle-x11.cpp:34-100 | a failed bring-up's last diagnostic names the last call made and its code, and `error` holds that code |
| BringupProperties.AllSucceedIff | moving-triangle-x11.cpp:33-101 | the conditions on the answers under which every stage succeeds, in both directions |
| BringupProperties.SuccessfulBringUp | moving-triangle-x11.cpp:18-101 | the whole state after a successful bring-up: the locals, the exact call sequence (the context with no share context and client version 2, made current with the one surface for drawing and reading), and the diagnostics (only the window's failure, when it failed) |
| BringupProperties.NoMatchingConfigGoesUnnoticed | moving-triangle-x11.cpp:62-68 | a choice with zero matching configurations still leads to a current context when every call succeeds |
| BringupProperties.BadCurrentSurfaceIsReported | moving-triangle-x11.cpp:95-101 | when only `eglMakeCurrent` fails, with `EGL_BAD_CURRENT_SURFACE`, the bring-up fails there and the diagnostic carries that code's sentence |

## Left out

- The text written by `fprintf` to stderr is not modelled. A diagnostic records the failing call and the code read from `eglGetError`, and `Diagnostic.Reason` gives the sentence.
- The idle loop (lines 103-106) is not modelled as a loop. It is the `Idles` exit, and the `return 0` after it cannot be reached.
- The configuration attribute list (lines 7-16) is not modelled. Its only effect is through `eglChooseConfig`'s answer, which is an input.
- Of the context attribute list (lines 27-30), only the client version 2 is recorded, in the `eglCreateContext` call.
- The `config` handle after an `eglChooseConfig` that succeeds with zero matching configurations is not modelled as uninitialised. The local `config` (line 23) is then never written, and lines 71, 77 and 87 pass whatever it holds. The model stores the configuration in the driver's answer, an arbitrary value that stands for that uninitialised local.
- The native `window` and `pixmap` handles (lines 24-25) are never assigned in the program. The model does not carry them. Whether they are accepted is part of the surface calls' answers.
- The EGL library itself is not modelled. Each call's answer is an input chosen independently of the others, and `eglGetError` returns the code that call's answer carries.
- `argc` and `argv` are unused by the program and are not modelled.
