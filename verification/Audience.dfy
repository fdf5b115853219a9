/** What an accepted event is shown to: the statistics, the source catalog and the live streams. */
module Audience {
  import opened Event
  import Stats
  import Catalog
  import Stream

  datatype Audience = Audience(totals: Stats.Totals, view: Catalog.View, hub: Stream.Hub)

  /** The time as the event meets it: the clock's text, the minute of its reception and the second. */
  datatype Moment = Moment(now: string, bucket: string, second: int)

  function Added(a: Audience, e: Event, at: Moment): Audience {
    a.(totals := Stats.Added(a.totals, Stats.SampleOf(e, at.bucket, at.second)))
  }

  function Noted(a: Audience, e: Event): Audience {
    a.(view := Catalog.Observed(a.view, Catalog.Sight(e)))
  }

  function Streamed(a: Audience, e: Event): Audience {
    a.(hub := Stream.Published(a.hub, e))
  }

  function Announced(a: Audience, e: Event, at: Moment): Audience {
    Streamed(Noted(Added(a, e, at), e), e)
  }
}
