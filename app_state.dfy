/** The virtual pet's needs in src/app_state.cpp: a once-a-minute tick
    that makes the pet hungrier, sadder when hungry, sicker when very
    hungry and happier when well fed, and the resets. */
module AppState {
  import opened Units

  const PET_UPDATE_INTERVAL_MS: int := 60000
  const STAT_MAX: int := 100
  const SAD_BELOW: int := 20
  const SICK_BELOW: int := 10
  const CONTENT_ABOVE: int := 70

  /** `PetState`: the stats are `uint8_t`, the counters `uint32_t`. */
  datatype Pet = Pet(hunger: byte, happiness: byte, health: byte, level: byte,
                     experience: u32, lastFeedTime: u32, lastPlayTime: u32, lastCheckTime: u32)

  datatype UiMode = Home | Menu | Feed | Play | Status | Settings

  /** The stats' documented range. */
  predicate Sane(p: Pet) {
    p.hunger <= STAT_MAX && p.happiness <= STAT_MAX && p.health <= STAT_MAX
  }

  /** The stats a reset gives; the activity timestamps are kept. */
  function Fresh(p: Pet): (q: Pet)
    ensures Sane(q)
    ensures q.lastFeedTime == p.lastFeedTime && q.lastPlayTime == p.lastPlayTime
            && q.lastCheckTime == p.lastCheckTime
    ensures q.hunger == 50 && q.happiness == 50 && q.health == 100 && q.level == 1 && q.experience == 0
  {
    p.(hunger := 50, happiness := 50, health := 100, level := 1, experience := 0)
  }

  /** One due update of `updatePetState`. */
  function Tick(p: Pet): (q: Pet)
    ensures q.hunger == if p.hunger > 0 then p.hunger - 1 else 0
    ensures q.happiness == p.happiness - 1 <==> q.hunger < SAD_BELOW && p.happiness > 0
    ensures q.happiness == p.happiness + 1 <==> q.hunger > CONTENT_ABOVE && p.happiness < STAT_MAX
    ensures q.happiness == p.happiness || q.happiness == p.happiness - 1 || q.happiness == p.happiness + 1
    ensures q.health == p.health - 1 <==> q.hunger < SICK_BELOW && p.health > 0
    ensures q.health == p.health || q.health == p.health - 1
    ensures q.level == p.level && q.experience == p.experience
    ensures q.lastFeedTime == p.lastFeedTime && q.lastPlayTime == p.lastPlayTime
            && q.lastCheckTime == p.lastCheckTime
    ensures Sane(p) ==> Sane(q)
  {
    var hunger := if p.hunger > 0 then p.hunger - 1 else 0;
    var happiness := if hunger < SAD_BELOW && p.happiness > 0 then p.happiness - 1 else p.happiness;
    var health := if hunger < SICK_BELOW && p.health > 0 then p.health - 1 else p.health;
    var happiness' := if hunger > CONTENT_ABOVE && happiness < STAT_MAX then happiness + 1 else happiness;
    p.(hunger := hunger, happiness := happiness', health := health)
  }

  /** `n` due updates in a row. */
  function Ticks(p: Pet, n: nat): Pet
    decreases n
  {
    if n == 0 then p else Ticks(Tick(p), n - 1)
  }

  /** Hunger counts down one point per due update and stops at 0. */
  lemma {:induction false} HungerCountsDown(p: Pet, n: nat)
    ensures Ticks(p, n).hunger == if p.hunger >= n then p.hunger - n else 0
    decreases n
  {
    if n > 0 {
      HungerCountsDown(Tick(p), n - 1);
    }
  }

  /** Health never recovers through ticks, and the stats stay in range. */
  lemma {:induction false} TicksKeepRanges(p: Pet, n: nat)
    ensures Ticks(p, n).health <= p.health
    ensures Sane(p) ==> Sane(Ticks(p, n))
    decreases n
  {
    if n > 0 {
      TicksKeepRanges(Tick(p), n - 1);
    }
  }

  lemma {:induction false} TicksLast(p: Pet, n: nat)
    ensures Ticks(p, n + 1) == Tick(Ticks(p, n))
    decreases n
  {
    if n > 0 {
      TicksLast(Tick(p), n - 1);
    }
  }

  /** A pet left alone from 50 hunger and 100 health keeps full health for
      40 updates, loses the first point on the 41st, and is starving
      after 50. */
  lemma {:induction false} NeglectedPet(p: Pet)
    requires p.hunger == 50 && p.health == 100
    ensures Ticks(p, 50).hunger == 0
    ensures Ticks(p, 40).health == 100
    ensures Ticks(p, 41).health == 99
  {
    HungerCountsDown(p, 50);
    HungerCountsDown(p, 40);
    HealthKeptWhileFed(p, 40);
    TicksLast(p, 40);
  }

  /** While hunger stays at or above SICK_BELOW after each update, health
      does not change. */
  lemma {:induction false} HealthKeptWhileFed(p: Pet, n: nat)
    requires p.hunger >= SICK_BELOW + n
    ensures Ticks(p, n).health == p.health
    decreases n
  {
    if n > 0 {
      HealthKeptWhileFed(Tick(p), n - 1);
    }
  }

  /** `g_petState`, `g_uiMode`, `g_menuIndex` and `g_lastPetUpdate`. */
  class App {
    var pet: Pet
    var uiMode: UiMode
    var menuIndex: int
    var lastPetUpdate: u32

    constructor ()
      ensures pet == Pet(50, 50, 100, 1, 0, 0, 0, 0) && uiMode == Home && menuIndex == 0 && lastPetUpdate == 0
    {
      pet := Pet(50, 50, 100, 1, 0, 0, 0, 0);
      uiMode := Home;
      menuIndex := 0;
      lastPetUpdate := 0;
    }

    /** `initAppState`. */
    method InitAppState()
      modifies this`pet, this`uiMode, this`menuIndex
      ensures pet == Fresh(old(pet)) && uiMode == Home && menuIndex == 0
    {
      pet := pet.(hunger := 50, happiness := 50, health := 100, level := 1, experience := 0);
      uiMode := Home;
      menuIndex := 0;
    }

    /** `resetPetState`. */
    method ResetPetState()
      modifies this`pet
      ensures pet == Fresh(old(pet))
    {
      pet := pet.(hunger := 50, happiness := 50, health := 100, level := 1, experience := 0);
    }

    /** `updatePetState`: nothing happens until PET_UPDATE_INTERVAL_MS
      have passed (wraparound-safe); then one `Tick` and a new stamp. */
    method UpdatePetState(nowMs: u32)
      modifies this`pet, this`lastPetUpdate
      ensures Elapsed(nowMs, old(lastPetUpdate)) < PET_UPDATE_INTERVAL_MS ==>
                pet == old(pet) && lastPetUpdate == old(lastPetUpdate)
      ensures Elapsed(nowMs, old(lastPetUpdate)) >= PET_UPDATE_INTERVAL_MS ==>
                pet == Tick(old(pet)) && lastPetUpdate == nowMs
    {
      var elapsed := Elapsed(nowMs, lastPetUpdate);
      if elapsed >= PET_UPDATE_INTERVAL_MS {
        if pet.hunger > 0 {
          pet := pet.(hunger := pet.hunger - 1);
        }
        if pet.hunger < SAD_BELOW && pet.happiness > 0 {
          pet := pet.(happiness := pet.happiness - 1);
        }
        if pet.hunger < SICK_BELOW && pet.health > 0 {
          pet := pet.(health := pet.health - 1);
        }
        if pet.hunger > CONTENT_ABOVE && pet.happiness < STAT_MAX {
          pet := pet.(happiness := pet.happiness + 1);
        }
        lastPetUpdate := nowMs;
      }
    }
  }
}
