/** Fixed configuration of the fractal explorer: frame size, iteration cap,
    start-up view and the mouse buttons the canvas reacts to. */
module Config {
  /** Frame buffer and window dimensions, in pixels. */
  const Width: int := 900
  const Height: int := 900

  /** Iteration cap; a count equal to it means "inside the set". */
  const MaxIter: int := 600

  /** Start-up view: 300 pixels per unit, top-left corner at (-2, 1.5). */
  const DefaultZoom: real := 300.0
  const DefaultTopLeftX: real := -2.0
  const DefaultTopLeftY: real := 1.5

  /** AWT button codes: MouseEvent.BUTTON1 (left) and MouseEvent.BUTTON3 (right). */
  const Button1: int := 1
  const Button3: int := 3
}
