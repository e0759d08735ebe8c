/** The five build_query_args strategies of the events collections: each turns
    its small input into the argument array handed to the posts query. */
module QueryArgs {
  import opened PhpValues
  import opened Calendar

  // Status values of the event model and of recurring dated items.
  const StatusOpen := "open"
  const StatusClosed := "closed"
  const StatusExpired := "expired"
  const RecurrenceStatus := "recurrent"
  const RecurrenceTrashStatus := "recurrent_trash"

  const EventPostType := "incsub_event"
  const Publish := "publish"

  // Query argument keys.
  const KeyPostType := "post_type"
  const KeyPostStatus := "post_status"
  const KeySuppressFilters := "suppress_filters"
  const KeyMetaQuery := "meta_query"
  const KeyPostsPerPage := "posts_per_page"
  const KeyPostIn := "post__in"
  const KeyAuthor := "author"
  const KeyPostParent := "post_parent"
  /** Present (and not null) when a single event is asked for. */
  const KeySingleEvent := "incsub_event"

  // Meta keys the date and status clauses compare.
  const MetaStart := "incsub_event_start"
  const MetaEnd := "incsub_event_end"
  const MetaStatus := "incsub_event_status"

  /** Published or a recurrence parent: the post statuses listed by the
      upcoming, popular and organizer collections. */
  const ListedStatuses: Value := List([Str(Publish), Str(RecurrenceStatus)])

  /** The keys the upcoming builder always sets over the caller's. */
  const UpcomingFixedKeys: set<string> := {KeyPostType, KeyPostStatus, KeySuppressFilters, KeyMetaQuery}

  /** The keys the old-events builder always sets over the caller's. */
  const OldFixedKeys: set<string> := {KeyPostType, KeySuppressFilters, KeyPostsPerPage, KeyMetaQuery}

  /** The keys the popular builder always sets over the caller's. */
  const PopularFixedKeys: set<string> := {KeyPostIn, KeyPostType, KeyPostStatus, KeyPostsPerPage}

  /** A meta-query clause comparing a DATETIME meta value with a date-time string. */
  function DateClause(key: string, compare: string, when: string): Value {
    Dict(map["key" := Str(key), "value" := Str(when), "compare" := Str(compare), "type" := Str("DATETIME")])
  }

  /** The meta query of an argument array, or [] when it has none. */
  function MetaClauses(args: Args): seq<Value> {
    if KeyMetaQuery in args && args[KeyMetaQuery].List? then args[KeyMetaQuery].items else []
  }

  // ----- upcoming -----

  /** Event statuses the upcoming collection leaves out: closed always, and
      expired too unless one particular event is asked for. */
  function ForbiddenStatuses(args: Args): (r: seq<string>)
    ensures StatusClosed in r
    ensures StatusExpired in r <==> !IsSet(args, KeySingleEvent)
    ensures forall s :: s in r ==> s == StatusClosed || s == StatusExpired
  {
    if IsSet(args, KeySingleEvent) then [StatusClosed] else [StatusClosed, StatusExpired]
  }

  /** posts_per_page defaults to -1 (no limit) when the caller did not set it. */
  function WithDefaultPerPage(args: Args): (r: Args)
    ensures r.Keys == args.Keys + {KeyPostsPerPage}
    ensures IsSet(r, KeyPostsPerPage)
    ensures forall k :: k in args && k != KeyPostsPerPage ==> r[k] == args[k]
    ensures IsSet(args, KeyPostsPerPage) ==> r[KeyPostsPerPage] == args[KeyPostsPerPage]
    ensures !IsSet(args, KeyPostsPerPage) ==> r[KeyPostsPerPage] == Int(-1)
  {
    if IsSet(args, KeyPostsPerPage) then args else args[KeyPostsPerPage := Int(-1)]
  }

  /** The upcoming builder's own part: events overlapping the month of ym,
      i.e. starting before the next month and ending at or after this one. */
  function UpcomingFixed(ym: YearMonth, args: Args): (r: Args)
    ensures r.Keys == UpcomingFixedKeys
    ensures r[KeyPostType] == Str(EventPostType) && r[KeyPostStatus] == ListedStatuses
    ensures r[KeySuppressFilters] == Bool(false)
  {
    map[
      KeyPostType := Str(EventPostType),
      KeyPostStatus := ListedStatuses,
      KeySuppressFilters := Bool(false),
      KeyMetaQuery := List([
        DateClause(MetaStart, "<", FirstOfMonth(NextMonth(ym))),
        DateClause(MetaEnd, ">=", FirstOfMonth(ym)),
        Dict(map["key" := Str(MetaStatus), "value" := List(Strs(ForbiddenStatuses(args))), "compare" := Str("NOT IN")])
      ])
    ]
  }

  /** Merging a map with the upcoming builder's fixed keys over the caller's
      arguments (with the page-size default): which value each key ends up with. */
  lemma MergeOverDefault(args: Args, fixed: Args)
    requires fixed.Keys == UpcomingFixedKeys
    requires fixed[KeyPostType] == Str(EventPostType) && fixed[KeyPostStatus] == ListedStatuses
    requires fixed[KeySuppressFilters] == Bool(false)
    ensures var r := ArrayMerge(WithDefaultPerPage(args), fixed);
      && r.Keys == args.Keys + UpcomingFixedKeys + {KeyPostsPerPage}
      && (forall k :: k in args && k !in UpcomingFixedKeys && k != KeyPostsPerPage ==> r[k] == args[k])
      && (IsSet(args, KeyPostsPerPage) ==> r[KeyPostsPerPage] == args[KeyPostsPerPage])
      && (!IsSet(args, KeyPostsPerPage) ==> r[KeyPostsPerPage] == Int(-1))
      && r[KeyPostType] == Str(EventPostType) && r[KeyPostStatus] == ListedStatuses
      && r[KeySuppressFilters] == Bool(false)
  {
    assert KeyPostsPerPage !in fixed;
  }

  /** Eab_UpcomingCollection::build_query_args for the month ym of the stored timestamp. */
  function UpcomingArgs(ym: YearMonth, args: Args): (r: Args)
    ensures r.Keys == args.Keys + UpcomingFixedKeys + {KeyPostsPerPage}
    ensures forall k :: k in args && k !in UpcomingFixedKeys && k != KeyPostsPerPage ==> r[k] == args[k]
    ensures IsSet(args, KeyPostsPerPage) ==> r[KeyPostsPerPage] == args[KeyPostsPerPage]
    ensures !IsSet(args, KeyPostsPerPage) ==> r[KeyPostsPerPage] == Int(-1)
    ensures r[KeyPostType] == Str(EventPostType) && r[KeyPostStatus] == ListedStatuses
    ensures r[KeySuppressFilters] == Bool(false)
  {
    var fixed := UpcomingFixed(ym, args);
    MergeOverDefault(args, fixed);
    ArrayMerge(WithDefaultPerPage(args), fixed)
  }

  /** The upcoming window is the month of ym, half-open: an event qualifies when
      it starts before the first of the following month (whatever month has the
      next index, so December rolls into January of the next year) and ends at
      or after the first of ym; then come the forbidden statuses, as NOT IN. */
  lemma UpcomingWindow(ym: YearMonth, args: Args, next: YearMonth)
    requires MonthIndex(next) == MonthIndex(ym) + 1
    ensures MetaClauses(UpcomingArgs(ym, args)) == [
      DateClause(MetaStart, "<", FirstOfMonth(next)),
      DateClause(MetaEnd, ">=", FirstOfMonth(ym)),
      Dict(map["key" := Str(MetaStatus), "value" := List(Strs(ForbiddenStatuses(args))), "compare" := Str("NOT IN")])
    ]
  {
    MonthIndexInjective(next, NextMonth(ym));
  }

  /** In December the upper bound is January 1st of the next year. */
  lemma UpcomingDecemberRollover(year: int, args: Args)
    ensures MetaClauses(UpcomingArgs(YearMonth(year, 12), args))[0]
         == DateClause(MetaStart, "<", IntToString(year + 1) + "-01-01 00:00")
  {
    var jan := YearMonth(year + 1, 1);
    UpcomingWindow(YearMonth(year, 12), args, jan);
    JanuaryFirst(year + 1);
  }

  /** The collection's constructors build the arguments twice (once in the timed
      collection's constructor, once in the root constructor on the result):
      the second build changes nothing. */
  lemma {:induction false} UpcomingIdempotent(ym: YearMonth, args: Args)
    ensures UpcomingArgs(ym, UpcomingArgs(ym, args)) == UpcomingArgs(ym, args)
  {
    var once := UpcomingArgs(ym, args);
    assert IsSet(once, KeySingleEvent) == IsSet(args, KeySingleEvent);
    assert ForbiddenStatuses(once) == ForbiddenStatuses(args);
    assert UpcomingFixed(ym, once) == UpcomingFixed(ym, args);
    assert WithDefaultPerPage(once) == once;
  }

  // ----- old -----

  /** The old-events builder's own part: still-open events that ended before
      the first of the month of ym. No post status and no lower bound. */
  function OldFixed(ym: YearMonth): (r: Args)
    ensures r.Keys == OldFixedKeys
    ensures r[KeyPostType] == Str(EventPostType) && r[KeyPostsPerPage] == Int(-1)
    ensures r[KeySuppressFilters] == Bool(false)
  {
    map[
      KeyPostType := Str(EventPostType),
      KeySuppressFilters := Bool(false),
      KeyPostsPerPage := Int(-1),
      KeyMetaQuery := List([
        Dict(map["key" := Str(MetaStatus), "value" := Str(StatusOpen)]),
        DateClause(MetaEnd, "<", FirstOfMonth(ym))
      ])
    ]
  }

  /** Merging a map with the old-events builder's fixed keys over the caller's
      arguments: which value each key ends up with. */
  lemma MergeOverOld(args: Args, fixed: Args)
    requires fixed.Keys == OldFixedKeys
    requires fixed[KeyPostType] == Str(EventPostType) && fixed[KeyPostsPerPage] == Int(-1)
    requires fixed[KeySuppressFilters] == Bool(false)
    ensures var r := ArrayMerge(args, fixed);
      && r.Keys == args.Keys + OldFixedKeys
      && (forall k :: k in args && k !in OldFixedKeys ==> r[k] == args[k])
      && r[KeyPostType] == Str(EventPostType) && r[KeyPostsPerPage] == Int(-1)
      && r[KeySuppressFilters] == Bool(false)
      && (KeyPostStatus in r <==> KeyPostStatus in args)
  {
    assert KeyPostStatus !in fixed;
  }

  /** Eab_OldCollection::build_query_args for the month ym of the stored timestamp. */
  function OldArgs(ym: YearMonth, args: Args): (r: Args)
    ensures r.Keys == args.Keys + OldFixedKeys
    ensures forall k :: k in args && k !in OldFixedKeys ==> r[k] == args[k]
    ensures r[KeyPostType] == Str(EventPostType) && r[KeyPostsPerPage] == Int(-1)
    ensures r[KeySuppressFilters] == Bool(false)
    ensures KeyPostStatus in r <==> KeyPostStatus in args
  {
    var fixed := OldFixed(ym);
    MergeOverOld(args, fixed);
    ArrayMerge(args, fixed)
  }

  /** Old events: status open, and ending strictly before the first of the
      month; no clause bounds the dates from below. */
  lemma OldCriteria(ym: YearMonth, args: Args)
    ensures MetaClauses(OldArgs(ym, args)) == [
      Dict(map["key" := Str(MetaStatus), "value" := Str(StatusOpen)]),
      DateClause(MetaEnd, "<", FirstOfMonth(ym))
    ]
    ensures forall c :: c in MetaClauses(OldArgs(ym, args)) && c.Dict? && "compare" in c.entries ==>
      c.entries["compare"] == Str("<")
  {
  }

  /** The second build of the old-events arguments changes nothing. */
  lemma OldIdempotent(ym: YearMonth, args: Args)
    ensures OldArgs(ym, OldArgs(ym, args)) == OldArgs(ym, args)
  {
    var once := OldArgs(ym, args);
    assert once + OldFixed(ym) == once;
  }

  // ----- popular -----

  /** Eab_PopularCollection::build_query_args, given the event-id column that
      the bookings aggregation returned (most bookings first). */
  function PopularArgs(ranked: seq<string>, args: Args): (r: Args)
    ensures r.Keys == args.Keys + PopularFixedKeys
    ensures forall k :: k in args && k !in PopularFixedKeys ==> r[k] == args[k]
    ensures r[KeyPostIn].List? && |r[KeyPostIn].items| == |ranked|
    ensures forall i :: 0 <= i < |ranked| ==> r[KeyPostIn].items[i] == Str(ranked[i])
    ensures r[KeyPostType] == Str(EventPostType) && r[KeyPostStatus] == ListedStatuses
    ensures r[KeyPostsPerPage] == Int(-1)
  {
    ArrayMerge(args, map[
      KeyPostIn := List(Strs(ranked)),
      KeyPostType := Str(EventPostType),
      KeyPostStatus := ListedStatuses,
      KeyPostsPerPage := Int(-1)
    ])
  }

  // ----- organizer -----

  /** Eab_OrganizerCollection::build_query_args: events whose author is the
      user id cast to an integer; nothing else of the input is used. */
  function OrganizerArgs(userId: Value): (r: Args)
    ensures r.Keys == {KeyAuthor, KeyPostType, KeyPostStatus, KeyPostsPerPage}
    ensures r[KeyAuthor] == Int(IntCast(userId))
    ensures r[KeyPostType] == Str(EventPostType) && r[KeyPostStatus] == ListedStatuses
    ensures r[KeyPostsPerPage] == Int(-1)
  {
    map[
      KeyAuthor := Int(IntCast(userId)),
      KeyPostType := Str(EventPostType),
      KeyPostStatus := ListedStatuses,
      KeyPostsPerPage := Int(-1)
    ]
  }

  /** "42abc" (any decimal followed by a non-digit) selects author 42, and a
      string with no number at its head selects author 0. */
  lemma OrganizerCoercion(n: PhpInt, rest: string, junk: string)
    requires EndsInteger(rest)
    requires NoNumberAtHead(junk)
    ensures OrganizerArgs(Str(IntToString(n) + rest))[KeyAuthor] == Int(n)
    ensures OrganizerArgs(Str(junk))[KeyAuthor] == Int(0)
  {
    IntCastOfDecimalPrefix(n, rest);
    IntCastNonNumeric(junk);
  }

  /** Two inputs with the same integer cast give the same arguments, and
      building again from the author it selected gives the same arguments. */
  lemma OrganizerOnlyUsesCast(a: Value, b: Value)
    requires IntCast(a) == IntCast(b)
    ensures OrganizerArgs(a) == OrganizerArgs(b)
    ensures OrganizerArgs(OrganizerArgs(a)[KeyAuthor]) == OrganizerArgs(a)
  {
  }

  // ----- all recurring children -----

  /** The argument of the recurring-children builder: a dated venue item
      (its id and whether it is trashed) or anything else. */
  datatype ParentArg =
    | DatedVenue(id: PhpInt, trashed: bool)
    | Other(v: Value)

  /** Eab_AllRecurringChildrenCollection::build_query_args. */
  function RecurringChildrenArgs(arg: ParentArg): (r: Value)
    ensures arg.Other? ==> r == arg.v
    ensures arg.DatedVenue? ==> r.Dict? && r.entries.Keys == {KeyPostType, KeyPostStatus, KeyPostParent, KeyPostsPerPage}
  {
    match arg
    case Other(v) => v
    case DatedVenue(id, trashed) =>
      var status := if trashed then RecurrenceTrashStatus else RecurrenceStatus;
      Dict(map[
        KeyPostType := Str(EventPostType),
        KeyPostStatus := Str(status),
        KeyPostParent := Int(id),
        KeyPostsPerPage := Int(-1)
      ])
  }

  /** Children of a dated venue item: the trash recurrence status exactly when
      the parent is trashed, the live one otherwise, under the parent's id. */
  lemma RecurringChildrenCriteria(id: PhpInt, trashed: bool)
    ensures var r := RecurringChildrenArgs(DatedVenue(id, trashed)).entries;
      (r[KeyPostStatus] == Str(RecurrenceTrashStatus) <==> trashed) &&
      (r[KeyPostStatus] == Str(RecurrenceStatus) <==> !trashed) &&
      r[KeyPostParent] == Int(id) && r[KeyPostsPerPage] == Int(-1) &&
      r[KeyPostType] == Str(EventPostType)
  {
  }
}
