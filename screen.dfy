/** The fixed size of the game area (GamePanel.GAME_WIDTH and GamePanel.GAME_HEIGHT). */
module Screen {
  const GAME_WIDTH: int := 1000
  const GAME_HEIGHT: int := 600
}
