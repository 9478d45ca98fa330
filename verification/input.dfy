/**
 * The GLFW input codes the callbacks look at.  GLFW passes them as plain
 * integers; the model names the ones the program compares against and
 * gathers every other code into one constructor.
 */
module Input {

  /** Keyboard keys (GLFW_KEY_*) that the program tests for. */
  datatype Key =
    | Escape | W | S | A | D | Q | E | F | R | V | C
    | LeftControl | RightControl | LeftShift | RightShift
    | OtherKey

  /** GLFW_PRESS, GLFW_RELEASE and GLFW_REPEAT. */
  datatype Action = Press | Release | Repeat

  /** Mouse buttons (GLFW_MOUSE_BUTTON_*). */
  datatype MouseButton = LeftButton | RightButton | OtherButton
}
