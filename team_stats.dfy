/** The team-rate rule: how one team-statistics reply becomes a goals-per-game
    rate, falling back to 1.0 when the reply carries no usable figure. */
module TeamStats {
  import opened Wrappers

  /** The value found at goals.for.average.total inside a non-empty
      statistics record. `Missing` means some key on that path is absent,
      so looking it up raises. */
  datatype Total = Missing | Null | Text(text: string) | Number(x: real)

  /** The "response" member of one team-statistics reply. `NoStats` covers
      both an absent member (the lookup defaults to an empty record) and a
      present but empty one. */
  datatype StatsReply = NoStats | Stats(total: Total)

  /** The rate used when the reply has no usable figure. */
  const DefaultRate: real := 1.0

  /** Python's falsy values among the totals: null, the empty string, zero. */
  predicate Falsy(t: Total) {
    t.Null? || t == Text("") || t == Number(0.0)
  }

  /** Python's float() on a non-falsy total; `parse` is the string
      conversion, `None` when it raises. */
  function ToFloat(t: Total, parse: string -> Option<real>): Option<real> {
    match t
    case Text(s) => parse(s)
    case Number(x) => Some(x)
    case _ => None
  }

  /** get_team_goals after its request: `None` when the lookup or the
      conversion raises, so that the fixture asking for it is skipped. */
  function RateFromStats(reply: StatsReply, parse: string -> Option<real>): (r: Option<real>)
    ensures reply.NoStats? ==> r == Some(DefaultRate)
    ensures reply.Stats? && Falsy(reply.total) ==> r == Some(DefaultRate)
    ensures reply.Stats? && reply.total.Missing? ==> r == None
    ensures reply.Stats? && reply.total.Text? && reply.total.text != "" ==> r == parse(reply.total.text)
    ensures reply.Stats? && reply.total.Number? && reply.total.x != 0.0 ==> r == Some(reply.total.x)
  {
    match reply
    case NoStats => Some(DefaultRate)
    case Stats(total) =>
      if total.Missing? then None
      else if Falsy(total) then Some(DefaultRate)
      else ToFloat(total, parse)
  }

  /** A converted rate is passed on as it is: it is neither clamped to 1.0
      nor kept non-negative. */
  lemma NoClamping(x: real, s: string, parse: string -> Option<real>)
    requires s != "" && parse(s) == Some(x)
    ensures RateFromStats(Stats(Text(s)), parse) == Some(x)
    ensures x != 0.0 ==> RateFromStats(Stats(Number(x)), parse) == Some(x)
  {
  }
}
