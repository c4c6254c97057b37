/**
 * EGL error codes and the diagnostic sentence the program prints for each
 * (the function `eglGetErrorStr` of moving-triangle-x11.cpp).
 *
 * The codes and their meanings are those of the error table in section 3.1
 * of the Khronos EGL 1.4 specification; their numeric values are the
 * definitions in Khronos' `egl.h`.
 */
module EglErrors {
  import opened Wrappers

  /** `EGLint`, the 32-bit signed integer type of every EGL code. */
  newtype Int32 = x: int | -0x8000_0000 <= x < 0x8000_0000

  /** The fifteen codes `eglGetError` may return, in the order of their values. */
  datatype ErrorCode =
    | Success            // EGL_SUCCESS
    | NotInitialized     // EGL_NOT_INITIALIZED
    | BadAccess          // EGL_BAD_ACCESS
    | BadAlloc           // EGL_BAD_ALLOC
    | BadAttribute       // EGL_BAD_ATTRIBUTE
    | BadConfig          // EGL_BAD_CONFIG
    | BadContext         // EGL_BAD_CONTEXT
    | BadCurrentSurface  // EGL_BAD_CURRENT_SURFACE
    | BadDisplay         // EGL_BAD_DISPLAY
    | BadMatch           // EGL_BAD_MATCH
    | BadNativePixmap    // EGL_BAD_NATIVE_PIXMAP
    | BadNativeWindow    // EGL_BAD_NATIVE_WINDOW
    | BadParameter       // EGL_BAD_PARAMETER
    | BadSurface         // EGL_BAD_SURFACE
    | ContextLost        // EGL_CONTEXT_LOST

  const FirstCode: Int32 := 0x3000
  const LastCode: Int32 := 0x300E

  /** The numeric value of a code: consecutive from 0x3000 to 0x300E. */
  function Value(e: ErrorCode): (v: Int32)
    ensures FirstCode <= v <= LastCode
  {
    match e
    case Success => 0x3000
    case NotInitialized => 0x3001
    case BadAccess => 0x3002
    case BadAlloc => 0x3003
    case BadAttribute => 0x3004
    case BadConfig => 0x3005
    case BadContext => 0x3006
    case BadCurrentSurface => 0x3007
    case BadDisplay => 0x3008
    case BadMatch => 0x3009
    case BadNativePixmap => 0x300A
    case BadNativeWindow => 0x300B
    case BadParameter => 0x300C
    case BadSurface => 0x300D
    case ContextLost => 0x300E
  }

  /**
   * The case label of the switch in `eglGetErrorStr` that an `EGLint` selects,
   * tried in the order the switch lists them; `None` is the fall-through.
   */
  function Decode(v: Int32): (r: Option<ErrorCode>)
    ensures r.Some? ==> Value(r.value) == v
    ensures r.None? <==> v < FirstCode || LastCode < v
  {
    if v == Value(Success) then Some(Success)
    else if v == Value(NotInitialized) then Some(NotInitialized)
    else if v == Value(BadAccess) then Some(BadAccess)
    else if v == Value(BadAlloc) then Some(BadAlloc)
    else if v == Value(BadAttribute) then Some(BadAttribute)
    else if v == Value(BadContext) then Some(BadContext)
    else if v == Value(BadConfig) then Some(BadConfig)
    else if v == Value(BadCurrentSurface) then Some(BadCurrentSurface)
    else if v == Value(BadDisplay) then Some(BadDisplay)
    else if v == Value(BadSurface) then Some(BadSurface)
    else if v == Value(BadMatch) then Some(BadMatch)
    else if v == Value(BadParameter) then Some(BadParameter)
    else if v == Value(BadNativePixmap) then Some(BadNativePixmap)
    else if v == Value(BadNativeWindow) then Some(BadNativeWindow)
    else if v == Value(ContextLost) then Some(ContextLost)
    else None
  }

  /**
   * The fixed sentence the switch returns for each code. Each sentence is
   * written as its opening words followed by the rest in short pieces; the
   * value is the whole sentence. No sentence is empty, so the empty string
   * `eglGetErrorStr` returns for other values is never mistaken for one.
   */
  function Message(e: ErrorCode): (m: string)
    ensures m != ""
  {
    match e
    case Success =>
      "The last function " + "succeeded without error."
    case NotInitialized =>
      "EGL is not "
      + ("initialized, or could not be "
         + "initialized, for the specified "
         + "EGL display connection.")
    case BadAccess =>
      "EGL cannot "
      + ("access a requested resource "
         + "(for example a context is "
         + "bound in another thread).")
    case BadAlloc =>
      "EGL failed "
      + ("to allocate resources for the "
         + "requested operation.")
    case BadAttribute =>
      "An unrecognized "
      + ("attribute or attribute value "
         + "was passed in the attribute "
         + "list.")
    case BadContext =>
      "An EGLContext "
      + ("argument does not name a valid "
         + "EGL rendering context.")
    case BadConfig =>
      "An EGLConfig "
      + ("argument does not name a valid "
         + "EGL frame buffer "
         + "configuration.")
    case BadCurrentSurface =>
      "The current "
      + ("surface of the calling thread "
         + "is a window, pixel buffer or "
         + "pixmap that is no longer "
         + "valid.")
    case BadDisplay =>
      "An EGLDisplay "
      + ("argument does not name a valid "
         + "EGL display connection.")
    case BadSurface =>
      "An EGLSurface "
      + ("argument does not name a valid "
         + "surface (window, pixel buffer "
         + "or pixmap) configured for GL "
         + "rendering.")
    case BadMatch =>
      "Arguments "
      + ("are inconsistent (for example, "
         + "a valid context requires "
         + "buffers not supplied by a "
         + "valid surface).")
    case BadParameter =>
      "One or more " + "argument values are invalid."
    case BadNativePixmap =>
      "A NativePixmapType "
      + ("argument does not refer to a "
         + "valid native pixmap.")
    case BadNativeWindow =>
      "A NativeWindowType "
      + ("argument does not refer to a "
         + "valid native window.")
    case ContextLost =>
      "A power management "
      + ("event has occurred. The "
         + "application must destroy all "
         + "contexts and reinitialise "
         + "OpenGL ES state and objects to "
         + "continue rendering.")
  }

  /**
   * Reads back the code a sentence of the table was produced from, by the
   * characters that tell the sentences apart (all within the opening words).
   * It has no counterpart in the program: it exists only as a proof device,
   * so that `MessagesDistinct` and `ErrorStringInjective` follow from the
   * read-back of each sentence instead of comparing long strings pairwise.
   */
  function CodeOfMessage(s: string): Option<ErrorCode>
  {
    if |s| < 10 then None
    else if s[0] == 'T' then
      if s[4] == 'l' then Some(Success)
      else if s[4] == 'c' then Some(BadCurrentSurface)
      else None
    else if s[0] == 'E' then
      if s[4] == 'i' then Some(NotInitialized)
      else if s[4] == 'c' then Some(BadAccess)
      else if s[4] == 'f' then Some(BadAlloc)
      else None
    else if s[0] == 'O' then Some(BadParameter)
    else if s[0] != 'A' then None
    else if s[1] == 'r' then Some(BadMatch)
    else if s[1] == 'n' then
      if s[3] == 'u' then Some(BadAttribute)
      else if s[6] == 'D' then Some(BadDisplay)
      else if s[6] == 'S' then Some(BadSurface)
      else if s[9] == 't' then Some(BadContext)
      else if s[9] == 'f' then Some(BadConfig)
      else None
    else if s[2] == 'p' then Some(ContextLost)
    else if s[8] == 'P' then Some(BadNativePixmap)
    else if s[8] == 'W' then Some(BadNativeWindow)
    else None
  }

  /** `eglGetErrorStr`: the sentence of a known code, the empty string for any other value. */
  function ErrorString(v: Int32): (s: string)
    ensures s == "" <==> v < FirstCode || LastCode < v
    ensures s != "" ==> CodeOfMessage(s) == Decode(v)
  {
    match Decode(v)
    case Some(e) =>
      MessageReadBack(e);
      Message(e)
    case None => ""
  }

  /** Distinct codes have distinct values, so `Decode` inverts `Value`. */
  lemma DecodeValue(e: ErrorCode)
    ensures Decode(Value(e)) == Some(e)
  {
  }

  // The read-back below is proved in four groups, following the branches of
  // CodeOfMessage, so that each proof only looks at a few sentences.

  lemma ReadBackOpeningTheEglOne(e: ErrorCode)
    requires e == Success || e == BadCurrentSurface || e == NotInitialized
          || e == BadAccess || e == BadAlloc || e == BadParameter
    ensures CodeOfMessage(Message(e)) == Some(e)
  {
  }

  lemma ReadBackOpeningAn(e: ErrorCode)
    requires e == BadAttribute || e == BadDisplay || e == BadSurface
          || e == BadContext || e == BadConfig
    ensures CodeOfMessage(Message(e)) == Some(e)
  {
  }

  lemma ReadBackOpeningArgumentsPower(e: ErrorCode)
    requires e == BadMatch || e == ContextLost
    ensures CodeOfMessage(Message(e)) == Some(e)
  {
  }

  lemma ReadBackOpeningNative(e: ErrorCode)
    requires e == BadNativePixmap || e == BadNativeWindow
    ensures CodeOfMessage(Message(e)) == Some(e)
  {
  }

  /** Every sentence names its code back: the table is a left-invertible map. */
  lemma MessageReadBack(e: ErrorCode)
    ensures CodeOfMessage(Message(e)) == Some(e)
    ensures |Message(e)| >= 10
  {
    match e
    case Success | BadCurrentSurface | NotInitialized | BadAccess | BadAlloc | BadParameter =>
      ReadBackOpeningTheEglOne(e);
    case BadAttribute | BadDisplay | BadSurface | BadContext | BadConfig =>
      ReadBackOpeningAn(e);
    case BadMatch | ContextLost =>
      ReadBackOpeningArgumentsPower(e);
    case BadNativePixmap | BadNativeWindow =>
      ReadBackOpeningNative(e);
  }

  /** Every known code maps to its own fixed, non-empty sentence. */
  lemma ErrorStringOfKnownCode(e: ErrorCode)
    ensures ErrorString(Value(e)) == Message(e)
    ensures ErrorString(Value(e)) != ""
  {
    DecodeValue(e);
    MessageReadBack(e);
  }

  /** Every value that is not one of the fifteen codes maps to the empty string. */
  lemma ErrorStringOfUnknownValue(v: Int32)
    requires forall e: ErrorCode :: Value(e) != v
    ensures ErrorString(v) == ""
  {
  }

  /** The sentence is empty exactly for the values outside 0x3000..0x300E. */
  lemma ErrorStringEmptyIff(v: Int32)
    ensures ErrorString(v) == "" <==> v < FirstCode || LastCode < v
  {
    if Decode(v).Some? {
      MessageReadBack(Decode(v).value);
    }
  }

  /** The fifteen sentences are pairwise distinct. */
  lemma MessagesDistinct(e1: ErrorCode, e2: ErrorCode)
    requires e1 != e2
    ensures Message(e1) != Message(e2)
  {
    MessageReadBack(e1);
    MessageReadBack(e2);
  }

  /** A non-empty diagnostic identifies the value it was produced from. */
  lemma ErrorStringInjective(v1: Int32, v2: Int32)
    requires ErrorString(v1) == ErrorString(v2) != ""
    ensures v1 == v2
  {
    match Decode(v1)
    case None =>
    case Some(e1) =>
      match Decode(v2)
      case None =>
      case Some(e2) =>
        if e1 != e2 {
          MessagesDistinct(e1, e2);
        }
  }
}
