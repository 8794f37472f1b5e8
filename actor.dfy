/** The part of a werewolf actor's data that the sheet's handlers read and
    write, and the two frenzy handlers. Each handler returns the actor as the
    host stores it after the handler's updates. */
module WerewolfActor {
  import opened Items

  /** `renown`, `abilities` and `skills` map a trait key to its rating;
      `items` maps an item id to the item. */
  datatype Actor = Actor(
    activeForm: string,
    rage: int,
    frenzyActive: bool,
    renown: map<string, int>,
    abilities: map<string, int>,
    skills: map<string, int>,
    items: map<string, Item>)

  /** The rage an actor is set to when a frenzy begins. */
  const FrenzyRage := 5

  /** Beginning a frenzy turns the frenzy flag on and sets rage to its
      frenzy value; nothing else changes. */
  function BeginFrenzy(a: Actor): (r: Actor)
    ensures r.frenzyActive && r.rage == FrenzyRage
    ensures r.(frenzyActive := a.frenzyActive, rage := a.rage) == a
  {
    a.(frenzyActive := true).(rage := FrenzyRage)
  }

  /** Ending a frenzy turns the frenzy flag off and leaves rage (and
      everything else) alone. */
  function EndFrenzy(a: Actor): (r: Actor)
    ensures !r.frenzyActive && r.rage == a.rage
    ensures r.(frenzyActive := a.frenzyActive) == a
  {
    a.(frenzyActive := false)
  }

  /** Pressing either button twice is the same as pressing it once. */
  lemma FrenzyHandlersIdempotent(a: Actor)
    ensures BeginFrenzy(BeginFrenzy(a)) == BeginFrenzy(a)
    ensures EndFrenzy(EndFrenzy(a)) == EndFrenzy(a)
  {
  }

  /** A frenzy that begins and ends leaves the actor out of frenzy with the
      frenzy rage: ending does not restore the rage held before. */
  lemma FrenzyRoundTrip(a: Actor)
    ensures EndFrenzy(BeginFrenzy(a)) == a.(frenzyActive := false, rage := FrenzyRage)
    ensures EndFrenzy(BeginFrenzy(a)) == EndFrenzy(a) <==> a.rage == FrenzyRage
  {
  }
}
