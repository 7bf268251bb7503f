/** The interactive clock-setting screen of src/time_setup.cpp: five
    clamped fields edited with the encoder, a press that advances to the
    next field, and a press on CONFIRM that sets the clock. */
module TimeSetup {
  import opened Units
  import Encoder

  /** `TimeSetup::clampValue`. */
  function ClampValue(value: int, min: int, max: int): (r: int)
    ensures min <= max ==> min <= r <= max
    ensures min <= value <= max ==> r == value
    ensures value < min ==> r == min
    ensures min <= max && value > max ==> r == max
  {
    if value < min then min else if value > max then max else value
  }

  lemma {:induction false} ClampIdempotent(value: int, min: int, max: int)
    requires min <= max
    ensures ClampValue(ClampValue(value, min, max), min, max) == ClampValue(value, min, max)
  {
  }

  /** The fields in their declared order. */
  datatype Field = Year | Month | Day | Hour | Minute | Confirm

  const FIELD_COUNT: int := 6

  function FieldIndex(f: Field): (i: int)
    ensures 0 <= i < FIELD_COUNT
  {
    match f
    case Year => 0
    case Month => 1
    case Day => 2
    case Hour => 3
    case Minute => 4
    case Confirm => 5
  }

  function FieldAt(i: int): (f: Field)
    requires 0 <= i < FIELD_COUNT
    ensures FieldIndex(f) == i
  {
    if i == 0 then Year
    else if i == 1 then Month
    else if i == 2 then Day
    else if i == 3 then Hour
    else if i == 4 then Minute
    else Confirm
  }

  /** `(currentField + 1) % FIELD_COUNT`. */
  function NextField(f: Field): (g: Field)
    ensures f != Confirm ==> FieldIndex(g) == FieldIndex(f) + 1
    ensures f == Confirm ==> g == Year
  {
    FieldAt((FieldIndex(f) + 1) % FIELD_COUNT)
  }

  /** Five presses walk from YEAR to CONFIRM through every field. */
  lemma {:induction false} FieldOrder()
    ensures NextField(Year) == Month && NextField(Month) == Day && NextField(Day) == Hour
    ensures NextField(Hour) == Minute && NextField(Minute) == Confirm
  {
  }

  datatype Fields = Fields(year: int, month: int, day: int, hour: int, minute: int)

  /** 2024-01-01 12:00. */
  const Defaults: Fields := Fields(2024, 1, 1, 12, 0)

  function Get(v: Fields, f: Field): int
    requires f != Confirm
  {
    match f
    case Year => v.year
    case Month => v.month
    case Day => v.day
    case Hour => v.hour
    case Minute => v.minute
  }

  /** The bounds of each field (the day is not checked against the month). */
  function Lo(f: Field): (lo: int)
    requires f != Confirm
    ensures 0 <= lo <= Get(Defaults, f)
  {
    match f
    case Year => 2024
    case Month => 1
    case Day => 1
    case Hour => 0
    case Minute => 0
  }

  function Hi(f: Field): (h: int)
    requires f != Confirm
    ensures Lo(f) < h
    ensures Get(Defaults, f) <= h
  {
    match f
    case Year => 2099
    case Month => 12
    case Day => 31
    case Hour => 23
    case Minute => 59
  }

  predicate InRange(v: Fields) {
    && Lo(Year) <= v.year <= Hi(Year)
    && Lo(Month) <= v.month <= Hi(Month)
    && Lo(Day) <= v.day <= Hi(Day)
    && Lo(Hour) <= v.hour <= Hi(Hour)
    && Lo(Minute) <= v.minute <= Hi(Minute)
  }

  /** Rotation by `steps` on the selected field: the field moves by
      `steps` and is clamped to its bounds, every other field is kept,
      and CONFIRM ignores rotation. */
  function Adjust(v: Fields, f: Field, steps: int): (w: Fields)
    ensures f == Confirm ==> w == v
    ensures f != Confirm ==> Get(w, f) == ClampValue(Get(v, f) + steps, Lo(f), Hi(f))
    ensures forall g: Field :: g != Confirm && g != f ==> Get(w, g) == Get(v, g)
    ensures InRange(v) ==> InRange(w)
    ensures InRange(v) && steps == 0 ==> w == v
  {
    match f
    case Year => v.(year := ClampValue(v.year + steps, 2024, 2099))
    case Month => v.(month := ClampValue(v.month + steps, 1, 12))
    case Day => v.(day := ClampValue(v.day + steps, 1, 31))
    case Hour => v.(hour := ClampValue(v.hour + steps, 0, 23))
    case Minute => v.(minute := ClampValue(v.minute + steps, 0, 59))
    case Confirm => v
  }

  /** The editor's locals: the five values and the selected field. */
  datatype Editor = Editor(values: Fields, field: Field)

  const Start: Editor := Editor(Defaults, Year)

  /** The arguments of the clock update on confirmation (seconds are 0). */
  datatype ClockTime = ClockTime(year: int, month: int, day: int, hour: int, minute: int, second: int)

  function ToClock(v: Fields): ClockTime {
    ClockTime(v.year, v.month, v.day, v.hour, v.minute, 0)
  }

  /** One loop iteration, as a press on the selected field either
      confirms or moves on. */
  datatype Session = Confirmed(time: ClockTime) | Editing(editor: Editor)

  /** What the loop sees at one iteration: the quadrature edges counted
      since the previous poll, the clock, and whether the switch is down. */
  datatype Tick = Tick(counts: int, nowMs: u32, pressed: bool)

  /** One iteration of the loop after the steps are known. */
  function Iterate(e: Editor, steps: int, pressed: bool): (r: Session)
    ensures InRange(e.values) && r.Confirmed? ==>
              r.time.second == 0 && InRange(Fields(r.time.year, r.time.month, r.time.day, r.time.hour, r.time.minute))
    ensures InRange(e.values) && r.Editing? ==> InRange(r.editor.values)
    ensures r.Confirmed? <==> pressed && e.field == Confirm
    ensures r.Confirmed? ==> r.time == ToClock(e.values)
    ensures InRange(e.values) && !pressed ==> r == Editing(Editor(Adjust(e.values, e.field, steps), e.field))
    ensures InRange(e.values) && pressed && e.field != Confirm ==> r == Editing(Editor(Adjust(e.values, e.field, steps), NextField(e.field)))
  {
    var values := if steps != 0 then Adjust(e.values, e.field, steps) else e.values;
    if pressed && e.field == Confirm then Confirmed(ToClock(values))
    else if pressed then Editing(Editor(values, NextField(e.field)))
    else Editing(Editor(values, e.field))
  }

  /** One iteration of the loop: the encoder decoder polls (with the
      application running) after the hardware counted `t.counts` edges,
      the step cell is drained (`pending` is what it held) and the editor
      edits. The result is the session and the decoder's new state and
      counter. */
  function Step(dec: Encoder.State, counter: int, pending: int, e: Editor, t: Tick): (r: (Session, Encoder.State, int))
    requires InRange(e.values)
    ensures r.0.Confirmed? ==> r.0.time.second == 0
                               && InRange(Fields(r.0.time.year, r.0.time.month, r.0.time.day, r.0.time.hour, r.0.time.minute))
    ensures r.0.Editing? ==> InRange(r.0.editor.values)
  {
    var o := Encoder.PollSpec(dec, counter + t.counts, true, t.nowMs);
    (Iterate(e, pending + o.emitted, t.pressed), o.state, o.counter)
  }

  /** The loop over a finite run of ticks; `pending` is what the step
      cell held on entry. */
  function Run(dec: Encoder.State, counter: int, pending: int, e: Editor, ticks: seq<Tick>): (r: Session)
    requires InRange(e.values)
    ensures r.Confirmed? ==> r.time.second == 0
                             && InRange(Fields(r.time.year, r.time.month, r.time.day, r.time.hour, r.time.minute))
    ensures r.Editing? ==> InRange(r.editor.values)
    ensures ticks == [] ==> r == Editing(e)
    decreases |ticks|
  {
    if ticks == [] then Editing(e)
    else
      var st := Step(dec, counter, pending, e, ticks[0]);
      match st.0
      case Confirmed(time) => Confirmed(time)
      case Editing(e') => Run(st.1, st.2, 0, e', ticks[1..])
  }

  /** One iteration of `Run`, unfolded. */
  lemma {:induction false} RunStep(dec: Encoder.State, counter: int, pending: int, e: Editor, ticks: seq<Tick>)
    requires InRange(e.values) && ticks != []
    ensures var st := Step(dec, counter, pending, e, ticks[0]);
            Run(dec, counter, pending, e, ticks)
              == if st.0.Confirmed? then st.0 else Run(st.1, st.2, 0, st.0.editor, ticks[1..])
  {
  }

  /** The defaults confirmed by pressing six times without rotating. */
  lemma {:induction false} SixPressesConfirmDefaults(s: Encoder.State)
    ensures var press := Tick(0, 0, true);
            Run(s, 0, 0, Start, [press, press, press, press, press, press])
              == Confirmed(ClockTime(2024, 1, 1, 12, 0, 0))
  {
    var press := Tick(0, 0, true);
    Encoder.ZeroReadingKeepsBacklog(s, 0);
    var e1 := Editor(Defaults, Month);
    var e2 := Editor(Defaults, Day);
    var e3 := Editor(Defaults, Hour);
    var e4 := Editor(Defaults, Minute);
    var e5 := Editor(Defaults, Confirm);
    assert Run(s, 0, 0, e5, [press]) == Confirmed(ClockTime(2024, 1, 1, 12, 0, 0));
    assert Run(s, 0, 0, e4, [press, press]) == Run(s, 0, 0, e5, [press]);
    assert Run(s, 0, 0, e3, [press, press, press]) == Run(s, 0, 0, e4, [press, press]);
    assert Run(s, 0, 0, e2, [press, press, press, press]) == Run(s, 0, 0, e3, [press, press, press]);
    assert Run(s, 0, 0, e1, [press, press, press, press, press]) == Run(s, 0, 0, e2, [press, press, press, press]);
  }

  /** The edit half of one iteration of `TimeSetup::run`: the switch on
      the selected field, then the press. */
  method EditStep(values: Fields, field: Field, steps: int, pressed: bool) returns (r: Session)
    ensures r == Iterate(Editor(values, field), steps, pressed)
  {
    var year, month, day, hour, minute := values.year, values.month, values.day, values.hour, values.minute;
    if steps != 0 {
      match field
      case Year => year := ClampValue(year + steps, 2024, 2099);
      case Month => month := ClampValue(month + steps, 1, 12);
      case Day => day := ClampValue(day + steps, 1, 31);
      case Hour => hour := ClampValue(hour + steps, 0, 23);
      case Minute => minute := ClampValue(minute + steps, 0, 59);
      case Confirm =>
    }
    if pressed && field == Confirm {
      return Confirmed(ClockTime(year, month, day, hour, minute, 0));
    }
    var next := if pressed then NextField(field) else field;
    r := Editing(Editor(Fields(year, month, day, hour, minute), next));
  }

  /** `TimeSetup::run` over a finite run of ticks. It returns the clock
      value it set on confirmation; the loop of the source never ends
      otherwise, and here ends with the script. */
  method RunSetup(dec: Encoder.Decoder, cell: StepAccumulator, ticks: seq<Tick>) returns (r: Session)
    modifies dec, cell
    ensures r == Run(old(dec.Model()), old(dec.counter), old(cell.value), Start, ticks)
  {
    var e := Start;
    var i := 0;
    while i < |ticks|
      invariant 0 <= i <= |ticks|
      invariant InRange(e.values)
      invariant Run(old(dec.Model()), old(dec.counter), old(cell.value), Start, ticks)
             == Run(dec.Model(), dec.counter, cell.value, e, ticks[i..])
      decreases |ticks| - i
    {
      assert ticks[i..][0] == ticks[i] && ticks[i..][1..] == ticks[i + 1..];
      RunStep(dec.Model(), dec.counter, cell.value, e, ticks[i..]);
      var step := Iteration(dec, cell, e, ticks[i]);
      if step.Confirmed? {
        return step;
      }
      e := step.editor;
      i := i + 1;
    }
    r := Editing(e);
  }

  /** One iteration of the loop: let the hardware count, poll the
      decoder, drain the step cell, edit. */
  method Iteration(dec: Encoder.Decoder, cell: StepAccumulator, e: Editor, t: Tick) returns (step: Session)
    requires InRange(e.values)
    modifies dec, cell
    ensures (step, dec.Model(), dec.counter) == Step(old(dec.Model()), old(dec.counter), old(cell.value), e, t)
    ensures cell.value == 0
  {
    dec.Count(t.counts);
    dec.Poll(true, cell, true, t.nowMs);
    var steps := cell.Drain();
    step := EditStep(e.values, e.field, steps, t.pressed);
  }
}
