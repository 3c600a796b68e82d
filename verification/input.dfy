/** The logical inputs the input layer hands to the controller (sdl_base.h). */
module Input {

  datatype InputType =
    | Unknown | Start | Select | Menu | Power
    | DpadLeft | DpadRight | DpadUp | DpadDown
    | A | B | X | Y
    | L1 | R1 | L2 | R2 | L3 | R3
}
