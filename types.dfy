/** Entity records of the shooter: the player craft, its bullets, the enemies and the
    cosmetic particles, plus the session status. Positions and sizes are exact reals;
    hit points and score are integers. */
module Types {

  /** Session status driven by the App component. */
  datatype GameStatus = Menu | Playing | GameOver

  /** The three enemy types: 'basic', 'fast' and 'tank'. */
  datatype Kind = Basic | Fast | Tank

  datatype Player = Player(
    x: real, y: real, width: real, height: real, color: string,
    vx: real, vy: real, hp: int, score: int)

  datatype Bullet = Bullet(
    x: real, y: real, width: real, height: real, color: string,
    vx: real, vy: real, hp: int, active: bool)

  datatype Enemy = Enemy(
    x: real, y: real, width: real, height: real, color: string,
    vx: real, vy: real, hp: int, active: bool, kind: Kind)

  datatype Particle = Particle(
    x: real, y: real, vx: real, vy: real, life: real, color: string, size: real)
}
