/**
 * The battle resolver: the winner of a battle and the story told about it.
 * Both are chosen at random in the bot; here the random choice is an input
 * (`coin` for the winner, `choice` in 0..4 for the story), so every
 * property holds for every outcome of the draw.
 *
 * The decorative glyphs at the start of each line are written exactly as
 * the source file holds them (a mis-decoded form of the intended emoji).
 */
module Battle {
  import opened Text

  /** A battle story: the opening line and the phases played out after it. */
  datatype Story = Story(setup: string, phases: seq<string>)

  /**
   * A scenario with two holes: each participant's `@name` goes between a
   * head and a tail. The setup names both (challenger first), the first
   * phase names the challenger, the second the challenged user, and the
   * third names no one.
   */
  datatype Template = Template(
    setupHead: string, setupMid: string, setupTail: string,
    firstHead: string, firstTail: string,
    secondHead: string, secondTail: string,
    third: string)

  /** The five scenarios of `battle_scenarios`, in the source's order. */
  const Scenarios: seq<Template> := [
    Template("\U{F0}\U{178}\U{203A}\U{EF}\U{B8} The arena falls silent as ", " and ", " face off...",
      "\U{E2}\U{161}\U{201D}\U{EF}\U{B8} ", " charges forward with a fierce battle cry!",
      "\U{F0}\U{178}\U{203A}\U{A1}\U{EF}\U{B8} ", " deflects the attack and counters!",
      "\U{F0}\U{178}\U{2019}\U{A5} The clash echoes through the marble halls!"),
    Template("\U{F0}\U{178}\U{152}\U{A9}\U{EF}\U{B8} Lightning crackles as ", " challenges ", " to combat!",
      "\U{F0}\U{178}\U{201D}\U{A5} ", " unleashes a flurry of marble strikes!",
      "\U{E2}\U{201E}\U{EF}\U{B8} ", " responds with an icy defensive maneuver!",
      "\U{E2}\U{161}\U{A1} The elements collide in spectacular fashion!"),
    Template("\U{F0}\U{178}\U{B4}\U{E2}\U{20AC}\U{E2}\U{2DC}\U{A0}\U{EF}\U{B8} The battleground is set as ",
      " draws their weapon against ", "!",
      "\U{F0}\U{178}\U{2014}\U{A1}\U{EF}\U{B8} ", " spins with deadly precision!",
      "\U{F0}\U{178}\U{203A}\U{A1}\U{EF}\U{B8} ", " parries and launches a counterattack!",
      "\U{F0}\U{178}\U{2019}\U{AB} Sparks fly as marble meets marble!"),
    Template("\U{F0}\U{178}\U{152}\U{2039} The volcanic arena rumbles as ", " and ", " take their positions!",
      "\U{F0}\U{178}\U{201D}\U{A5} ", " launches a blazing offensive maneuver!",
      "\U{F0}\U{178}\U{2019}\U{A8} ", " creates a whirlwind defense, scattering the attack!",
      "\U{E2}\U{2DC}\U{201E}\U{EF}\U{B8} Molten marbles fly through the air as the battle intensifies!"),
    Template("\U{F0}\U{178}\U{152}\U{160} Waves crash against the coastal arena as ", " challenges ", "!",
      "\U{F0}\U{178}\U{152}\U{AA}\U{EF}\U{B8} ", " summons a swirling vortex of marbles!",
      "\U{F0}\U{178}\U{A7}\U{160} ", " creates a frozen barrier, stopping the assault!",
      "\U{F0}\U{178}\U{2019}\U{A6} The tide of battle shifts back and forth between the combatants!")
  ]

  /** The f-string substitution: a template with both names filled in. */
  function Fill(t: Template, a: string, b: string): Story {
    Story(t.setupHead + a + t.setupMid + b + t.setupTail,
      [t.firstHead + a + t.firstTail, t.secondHead + b + t.secondTail, t.third])
  }

  /** Filling any template puts `a` in the setup and first phase, `b` in the setup and second phase. */
  lemma FillShowsNames(t: Template, a: string, b: string)
    ensures |Fill(t, a, b).phases| == 3
    ensures IsInfix(a, Fill(t, a, b).setup) && IsInfix(b, Fill(t, a, b).setup)
    ensures IsInfix(a, Fill(t, a, b).phases[0]) && IsInfix(b, Fill(t, a, b).phases[1])
  {
    InfixOfConcat(t.setupHead, a, t.setupMid + b + t.setupTail);
    assert t.setupHead + a + t.setupMid + b + t.setupTail == t.setupHead + a + (t.setupMid + b + t.setupTail);
    InfixOfConcat(t.setupHead + a + t.setupMid, b, t.setupTail);
    InfixOfConcat(t.firstHead, a, t.firstTail);
    InfixOfConcat(t.secondHead, b, t.secondTail);
  }

  /**
   * `generate_battle_story`: scenario `choice` of the five. Its setup
   * names both participants as `@name`, it has exactly three phases, the
   * first phase names the challenger and the second the challenged user.
   */
  function GenerateBattleStory(challenger: string, challenged: string, choice: nat): (s: Story)
    requires choice < |Scenarios|
    ensures |s.phases| == 3
    ensures IsInfix("@" + challenger, s.setup) && IsInfix("@" + challenged, s.setup)
    ensures IsInfix("@" + challenger, s.phases[0])
    ensures IsInfix("@" + challenged, s.phases[1])
  {
    FillShowsNames(Scenarios[choice], "@" + challenger, "@" + challenged);
    Fill(Scenarios[choice], "@" + challenger, "@" + challenged)
  }

  /**
   * `determine_winner`: the winner is the participant the draw picks; the
   * loser is the challenged user when the winner equals the challenger,
   * and the challenger otherwise.
   */
  function DetermineWinner(challenger: string, challenged: string, coin: bool): (r: (string, string))
    ensures r.0 == challenger || r.0 == challenged
    ensures challenger != challenged ==> r.0 != r.1 && {r.0, r.1} == {challenger, challenged}
    ensures challenger == challenged ==> r.0 == challenger && r.1 == challenger
  {
    var winner := if coin then challenger else challenged;
    var loser := if winner == challenger then challenged else challenger;
    (winner, loser)
  }

  /** Either participant can win: each draw outcome picks a different one. */
  lemma EitherMayWin(challenger: string, challenged: string)
    ensures DetermineWinner(challenger, challenged, true) == (challenger, challenged)
    ensures challenger != challenged ==> DetermineWinner(challenger, challenged, false) == (challenged, challenger)
  {
  }
}
