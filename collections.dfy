/** The collection objects: each is built once from its strategy's arguments,
    runs its query on construction, and can hand back the query or the events
    it found. The factory functions at the end are the entry points callers use. */
module Collections {
  import opened PhpValues
  import opened Calendar
  import opened QueryArgs

  datatype Option<T> = None | Some(value: T)

  /** A raw post row, as the query engine returns it. */
  datatype Post = Post(id: int, fields: Args)

  /** An event model, constructed from exactly one raw post. */
  datatype EventModel = EventModel(post: Post)

  /** A query object: the arguments it was built from and the posts the
      query engine answered with. */
  datatype Query = Query(args: Value, posts: seq<Post>)

  /** The timestamp a timed collection stores: the one given, or the current
      time when the one given is falsy (false, null and 0 all read as 0 here). */
  function StoredTimestamp(timestamp: int, now: int): (t: int)
    ensures timestamp != 0 ==> t == timestamp
    ensures timestamp == 0 ==> t == now
  {
    if timestamp != 0 then timestamp else now
  }

  /** One event model per post, in result order. */
  function Materialize(posts: seq<Post>): (events: seq<EventModel>)
    ensures |events| == |posts|
    ensures forall i :: 0 <= i < |posts| ==> events[i].post == posts[i]
  {
    if posts == [] then [] else [EventModel(posts[0])] + Materialize(posts[1..])
  }

  class Collection {
    /** The executed query, set once by the constructor. */
    var query: Query
    /** Set by the upcoming and old collections only. */
    var timestamp: Option<int>

    /** Upcoming events for the month of the timestamp. The timed constructor
        stores the timestamp and builds the arguments; the root constructor
        builds them a second time from that result and runs the query. */
    constructor Upcoming(ts: int, args: Args, now: int, dateOf: int -> YearMonth, engine: Value -> seq<Post>)
      ensures timestamp == Some(StoredTimestamp(ts, now))
      ensures query.args == Dict(UpcomingArgs(dateOf(StoredTimestamp(ts, now)), args))
      ensures query.posts == engine(query.args)
    {
      var stamp := StoredTimestamp(ts, now);
      var ym := dateOf(stamp);
      var first := UpcomingArgs(ym, args);
      var second := UpcomingArgs(ym, first);
      UpcomingIdempotent(ym, args);
      timestamp := Some(stamp);
      query := Query(Dict(second), engine(Dict(second)));
    }

    /** Old (ended, still open) events before the month of the timestamp,
        with the same two-build construction as Upcoming. */
    constructor Old(ts: int, args: Args, now: int, dateOf: int -> YearMonth, engine: Value -> seq<Post>)
      ensures timestamp == Some(StoredTimestamp(ts, now))
      ensures query.args == Dict(OldArgs(dateOf(StoredTimestamp(ts, now)), args))
      ensures query.posts == engine(query.args)
    {
      var stamp := StoredTimestamp(ts, now);
      var ym := dateOf(stamp);
      var first := OldArgs(ym, args);
      var second := OldArgs(ym, first);
      OldIdempotent(ym, args);
      timestamp := Some(stamp);
      query := Query(Dict(second), engine(Dict(second)));
    }

    /** Events ranked by bookings; ranked is the event-id column of the
        bookings aggregation. */
    constructor Popular(args: Args, ranked: seq<string>, engine: Value -> seq<Post>)
      ensures timestamp == None
      ensures query.args == Dict(PopularArgs(ranked, args))
      ensures query.posts == engine(query.args)
    {
      var built := Dict(PopularArgs(ranked, args));
      timestamp := None;
      query := Query(built, engine(built));
    }

    /** Events authored by a user. */
    constructor Organizer(userId: Value, engine: Value -> seq<Post>)
      ensures timestamp == None
      ensures query.args == Dict(OrganizerArgs(userId))
      ensures query.posts == engine(query.args)
    {
      var built := Dict(OrganizerArgs(userId));
      timestamp := None;
      query := Query(built, engine(built));
    }

    /** All recurring children of a parent event. */
    constructor AllRecurringChildren(arg: ParentArg, engine: Value -> seq<Post>)
      ensures timestamp == None
      ensures query.args == RecurringChildrenArgs(arg)
      ensures query.posts == engine(query.args)
    {
      var built := RecurringChildrenArgs(arg);
      timestamp := None;
      query := Query(built, engine(built));
    }

    /** The query object this collection ran. */
    method ToQuery() returns (q: Query)
      ensures q == query
    {
      q := query;
    }

    /** The stored timestamp of a timed collection. */
    method GetTimestamp() returns (t: int)
      requires timestamp.Some?
      ensures t == timestamp.value
    {
      t := timestamp.value;
    }

    /** The query's posts as event models, one per post in result order;
        empty when the query found nothing. */
    method ToCollection() returns (events: seq<EventModel>)
      ensures events == Materialize(query.posts)
      ensures |events| == |query.posts|
    {
      events := [];
      var posts := query.posts;
      if posts == [] {
        return;
      }
      for i := 0 to |posts|
        invariant |events| == i
        invariant forall j :: 0 <= j < i ==> events[j] == EventModel(posts[j])
      {
        events := events + [EventModel(posts[i])];
      }
    }
  }

  // ----- factory: one entry point per strategy and result shape -----

  /** The query of the upcoming events for the month of the timestamp. */
  method GetUpcoming(ts: int, args: Args, now: int, dateOf: int -> YearMonth, engine: Value -> seq<Post>)
    returns (q: Query)
    ensures q.args == Dict(UpcomingArgs(dateOf(StoredTimestamp(ts, now)), args))
    ensures q.posts == engine(q.args)
  {
    var me := new Collection.Upcoming(ts, args, now, dateOf, engine);
    q := me.ToQuery();
  }

  /** The upcoming events for the month of the timestamp. */
  method GetUpcomingEvents(ts: int, args: Args, now: int, dateOf: int -> YearMonth, engine: Value -> seq<Post>)
    returns (events: seq<EventModel>)
    ensures events == Materialize(engine(Dict(UpcomingArgs(dateOf(StoredTimestamp(ts, now)), args))))
  {
    var me := new Collection.Upcoming(ts, args, now, dateOf, engine);
    events := me.ToCollection();
  }

  /** The query of the old events before the month of the timestamp. */
  method GetOld(ts: int, args: Args, now: int, dateOf: int -> YearMonth, engine: Value -> seq<Post>)
    returns (q: Query)
    ensures q.args == Dict(OldArgs(dateOf(StoredTimestamp(ts, now)), args))
    ensures q.posts == engine(q.args)
  {
    var me := new Collection.Old(ts, args, now, dateOf, engine);
    q := me.ToQuery();
  }

  /** The old events before the month of the timestamp. */
  method GetOldEvents(ts: int, args: Args, now: int, dateOf: int -> YearMonth, engine: Value -> seq<Post>)
    returns (events: seq<EventModel>)
    ensures events == Materialize(engine(Dict(OldArgs(dateOf(StoredTimestamp(ts, now)), args))))
  {
    var me := new Collection.Old(ts, args, now, dateOf, engine);
    events := me.ToCollection();
  }

  /** The query of the events ranked by bookings. */
  method GetPopular(args: Args, ranked: seq<string>, engine: Value -> seq<Post>) returns (q: Query)
    ensures q.args == Dict(PopularArgs(ranked, args))
    ensures q.posts == engine(q.args)
  {
    var me := new Collection.Popular(args, ranked, engine);
    q := me.ToQuery();
  }

  /** The events ranked by bookings. */
  method GetPopularEvents(args: Args, ranked: seq<string>, engine: Value -> seq<Post>)
    returns (events: seq<EventModel>)
    ensures events == Materialize(engine(Dict(PopularArgs(ranked, args))))
  {
    var me := new Collection.Popular(args, ranked, engine);
    events := me.ToCollection();
  }

  /** All recurring children of a parent event. */
  method GetAllRecurringChildrenEvents(event: ParentArg, engine: Value -> seq<Post>)
    returns (events: seq<EventModel>)
    ensures events == Materialize(engine(RecurringChildrenArgs(event)))
  {
    var me := new Collection.AllRecurringChildren(event, engine);
    events := me.ToCollection();
  }

  /** The events a user organizes. */
  method GetUserOrganizedEvents(userId: Value, engine: Value -> seq<Post>)
    returns (events: seq<EventModel>)
    ensures events == Materialize(engine(Dict(OrganizerArgs(userId))))
  {
    var me := new Collection.Organizer(userId, engine);
    events := me.ToCollection();
  }
}
