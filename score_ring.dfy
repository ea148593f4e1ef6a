/** The `ScoreRing` component: its prop defaults, the colour band chosen
    from the score, and the displayed number that starts at 0 and is set to
    the score by a timer. The SVG geometry is not modelled. */
module ScoreRingComponent {
  import opened Wrappers

  const DefaultSize := 120
  const DefaultStrokeWidth := 8
  const DefaultLabel := "ATS Score"

  /** The ring's colour band. */
  datatype Tone = Success | Warning | Destructive

  /** `getScoreColor`: success from 80 up, warning from 60 up, destructive below. */
  function ScoreTone(score: int): (t: Tone)
    ensures t == Success <==> score >= 80
    ensures t == Warning <==> 60 <= score < 80
    ensures t == Destructive <==> score < 60
  {
    if score >= 80 then Success else if score >= 60 then Warning else Destructive
  }

  /** The CSS class of a band. */
  function ToneClass(t: Tone): string {
    match t
    case Success => "stroke-success"
    case Warning => "stroke-warning"
    case Destructive => "stroke-destructive"
  }

  /** How bad a band looks: 0 is the best. */
  function Severity(t: Tone): nat {
    match t
    case Success => 0
    case Warning => 1
    case Destructive => 2
  }

  /** A higher score never gets a worse band. */
  lemma ToneMonotone(lower: int, higher: int)
    requires lower <= higher
    ensures Severity(ScoreTone(higher)) <= Severity(ScoreTone(lower))
  {
  }

  /** The props after defaulting. */
  datatype RingProps = RingProps(score: int, size: int, strokeWidth: int, labelText: string)

  /** Destructuring with defaults: an omitted (undefined) prop takes its
      default of 120, 8 or "ATS Score"; a given prop and the score are kept. */
  function ResolveProps(score: int, size: Option<int>, strokeWidth: Option<int>, labelText: Option<string>): (p: RingProps)
    ensures p.score == score
    ensures p.size == (if size.Some? then size.value else 120)
    ensures p.strokeWidth == (if strokeWidth.Some? then strokeWidth.value else 8)
    ensures p.labelText == (if labelText.Some? then labelText.value else "ATS Score")
  {
    RingProps(score,
              if size.Some? then size.value else DefaultSize,
              if strokeWidth.Some? then strokeWidth.value else DefaultStrokeWidth,
              if labelText.Some? then labelText.value else DefaultLabel)
  }

  /** One mounted ring. */
  class ScoreRing {
    const props: RingProps
    /** The `animatedScore` state: the number shown in the centre. */
    var animatedScore: int

    constructor (props: RingProps)
      ensures this.props == props && animatedScore == 0
    {
      this.props := props;
      animatedScore := 0;
    }

    /** The effect's timer fires and sets the shown number to the score. */
    method TimerFires()
      modifies this`animatedScore
      ensures animatedScore == props.score
    {
      animatedScore := props.score;
    }

    /** The ring's colour class: taken from the score prop, not from the
        animated number, so it is final from the first render. */
    function StrokeClass(): (c: string)
      ensures c == "stroke-success" <==> props.score >= 80
      ensures c == "stroke-warning" <==> 60 <= props.score < 80
      ensures c == "stroke-destructive" <==> props.score < 60
    {
      ToneClass(ScoreTone(props.score))
    }
  }

  /** The shown number is 0 on mount and the score once the timer fired;
      the colour does not change in between. */
  method MountThenTick(props: RingProps) returns (before: int, after: int, classBefore: string, classAfter: string)
    ensures before == 0 && after == props.score && classBefore == classAfter == ToneClass(ScoreTone(props.score))
  {
    var ring := new ScoreRing(props);
    before := ring.animatedScore;
    classBefore := ring.StrokeClass();
    ring.TimerFires();
    after := ring.animatedScore;
    classAfter := ring.StrokeClass();
  }
}
