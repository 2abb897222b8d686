/** The application shell: the session status with the last result, the overlay it shows,
    and the way it drives the canvas: entering a session resets the canvas, frames run only
    while playing, and a frame that ends the session hands its result back. */
module App {
  import opened Types
  import opened Rules
  import opened Frame
  import opened GameCanvas

  /** What is drawn over the canvas. */
  datatype Overlay = NoOverlay | MainMenu | GameOverScreen(score: int, duration: int)

  /** The three pieces of component state and the handlers that overwrite them. */
  class Shell {
    var status: GameStatus
    var lastScore: int
    var lastDuration: int

    /** The application opens on the menu with no result recorded. */
    constructor ()
      ensures status == Menu && lastScore == 0 && lastDuration == 0
    {
      status := Menu;
      lastScore := 0;
      lastDuration := 0;
    }

    /** startGame: switches to playing, whatever the status was. */
    method StartGame()
      modifies this`status
      ensures status == Playing
    {
      status := Playing;
    }

    /** handleGameOver: records the result and ends the session. */
    method HandleGameOver(score: int, duration: int)
      modifies this
      ensures status == GameOver && lastScore == score && lastDuration == duration
    {
      lastScore := score;
      lastDuration := duration;
      status := GameOver;
    }

    /** restartGame: switches to playing again; the recorded result stays. */
    method RestartGame()
      modifies this`status
      ensures status == Playing
    {
      status := Playing;
    }

    /** The menu is shown only on the menu, the result screen only after a session ended,
        and the result screen shows the recorded score and duration. */
    function Screen(): (o: Overlay)
      reads this
      ensures o.MainMenu? <==> status == Menu
      ensures o.GameOverScreen? <==> status == GameOver
      ensures o.NoOverlay? <==> status == Playing
      ensures o.GameOverScreen? ==> o.score == lastScore && o.duration == lastDuration
    {
      match status
      case Menu => MainMenu
      case Playing => NoOverlay
      case GameOver => GameOverScreen(lastScore, lastDuration)
    }
  }

  /** The shell together with the canvas it renders, with the status as the canvas sees it. */
  class Session {
    const shell: Shell
    const canvas: Game

    /** Between events: the canvas state is settled; nothing is recorded before the first
        session; a running session has a live player; an ended one has a dead player whose
        score is the one recorded. */
    ghost predicate Valid()
      reads this, shell, canvas
    {
      && canvas.Valid()
      && (shell.status == Menu ==> shell.lastScore == 0 && shell.lastDuration == 0)
      && (shell.status == Playing ==> canvas.player.hp > 0)
      && (shell.status == GameOver ==> canvas.player.hp <= 0 && shell.lastScore == canvas.player.score)
    }

    constructor ()
      ensures Valid() && shell.status == Menu && canvas.State() == Initial()
      ensures fresh(shell) && fresh(canvas)
    {
      shell := new Shell();
      canvas := new Game();
    }

    /** The reset effect runs when the status changes to playing, so entering a session
        from the menu or the result screen starts a fresh game, while an event that leaves
        the status at playing leaves the canvas alone. */
    method Enter(now: int)
      requires Valid()
      modifies shell`status, canvas
      ensures Valid() && shell.status == Playing
      ensures old(shell.status) != Playing ==> canvas.State() == Fresh() && canvas.startTime == now
      ensures old(shell.status) == Playing ==>
        canvas.State() == old(canvas.State()) && canvas.startTime == old(canvas.startTime)
    {
      var was := shell.status;
      shell.StartGame();
      if was != Playing {
        canvas.Reset(now);
      }
    }

    /** The restart button: the same transition through restartGame. */
    method Restart(now: int)
      requires Valid()
      modifies shell`status, canvas
      ensures Valid() && shell.status == Playing
      ensures old(shell.status) != Playing ==> canvas.State() == Fresh() && canvas.startTime == now
      ensures old(shell.status) == Playing ==>
        canvas.State() == old(canvas.State()) && canvas.startTime == old(canvas.startTime)
    {
      var was := shell.status;
      shell.RestartGame();
      if was != Playing {
        canvas.Reset(now);
      }
    }

    /** Pointer moves steer the craft only while a session runs. */
    method PointerMove(pointerX: real)
      requires Valid()
      modifies canvas`player
      ensures Valid()
      ensures shell.status == Playing ==> canvas.player == old(canvas.player).(x := PointerX(pointerX))
      ensures shell.status != Playing ==> canvas.player == old(canvas.player)
    {
      if shell.status == Playing {
        canvas.PointerMove(pointerX);
      }
    }

    /** One animation frame, which runs only while playing: the canvas advances by one
        update, and when the player has no hit points left the result goes to the shell,
        which ends the session; otherwise the status stays and the next frame follows. */
    method Frame(keys: Keys, rand: Rng, now: int)
      requires Valid() && shell.status == Playing
      modifies shell, canvas
      ensures Valid()
      ensures canvas.State() == Update(old(canvas.State()), keys, rand)
      ensures canvas.startTime == old(canvas.startTime)
      ensures canvas.player.hp <= 0 ==>
        && shell.status == GameOver
        && shell.lastScore == canvas.player.score
        && shell.lastDuration * 1000 <= now - canvas.startTime < shell.lastDuration * 1000 + 1000
      ensures canvas.player.hp > 0 ==>
        shell.status == Playing && shell.lastScore == old(shell.lastScore)
        && shell.lastDuration == old(shell.lastDuration)
    {
      var r := canvas.Step(keys, rand, now);
      if r.Ended? {
        shell.HandleGameOver(r.score, r.duration);
      }
    }
  }
}
