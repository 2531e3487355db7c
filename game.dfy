/**
 * Construction of a replay game: the configuration a ReplaySokobanGame keeps
 * in its final fields, and the check that at least one input engine is given.
 *
 * The game state and the rendering engine are collaborators whose behaviour
 * is not part of this model, so the value keeps only the scheduling mode,
 * the frame rate and, for every input engine, the actions it will yield.
 */
module Game {
  import opened Actions

  datatype Mode = RoundRobin | FreeRace

  /** The frame rate used when none is given. */
  const DefaultFrameRate: int := 60

  datatype Game = Game(mode: Mode, frameRate: int, inputEngines: seq<seq<Action>>)

  /** The exception a constructor throws. */
  datatype ConfigError = IllegalArgument(message: string)

  datatype Result<T> = Ok(value: T) | Err(error: ConfigError)

  /**
   * The full constructor: it throws before setting any field when the list of
   * input engines is empty, and otherwise keeps its arguments as given.
   */
  function NewGame(mode: Mode, frameRate: int, inputEngines: seq<seq<Action>>): (r: Result<Game>)
    ensures r.Err? <==> |inputEngines| == 0
    ensures r.Err? ==> r.error == IllegalArgument("No input engine specified")
    ensures r.Ok? ==> |r.value.inputEngines| > 0
    ensures r.Ok? ==> r.value.mode == mode && r.value.frameRate == frameRate
                      && r.value.inputEngines == inputEngines
  {
    if |inputEngines| == 0 then Err(IllegalArgument("No input engine specified"))
    else Ok(Game(mode, frameRate, inputEngines))
  }

  /** The short constructor: free-race mode at the default frame rate, with the same check. */
  function NewDefaultGame(inputEngines: seq<seq<Action>>): (r: Result<Game>)
    ensures r.Err? <==> |inputEngines| == 0
    ensures r.Err? ==> r.error == IllegalArgument("No input engine specified")
    ensures r.Ok? ==> r.value == Game(FreeRace, 60, inputEngines)
  {
    NewGame(FreeRace, DefaultFrameRate, inputEngines)
  }
}
