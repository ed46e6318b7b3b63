/** The shape of the requests the resource services hand to the transport:
    a verb, a path and a string-keyed map of query parameters or body fields. */
module Http {
  import opened Wrappers
  import opened Text
  import opened Types

  /** A parameter value as the transport serialises it. */
  datatype ParamValue =
    | PStr(text: string)
    | PNum(num: int)
    | PBool(flag: bool)
    | PList(items: seq<string>)
    | PNumRange(range: NumRange)
    | PDateRange(dates: DateRange)
    /** A nested object, such as a free-form `variables` record. */
    | PObject(fields: map<string, ParamValue>)

  /** A parameter object; a key that is absent is one JavaScript left `undefined`. */
  type Params = map<string, ParamValue>

  datatype Verb = Get | Post | Put | Patch | Delete

  /** One call of a transport method: `params` is the query for `Get` and the JSON body
      otherwise (empty when the call sends no body). */
  datatype Request = Request(verb: Verb, path: string, params: Params)

  /** `p` with `key` set when `v` is present: a conditional spread `...(c && { key: v })`. */
  function With(p: Params, key: string, v: Option<ParamValue>): (r: Params)
    ensures key in r <==> key in p || v.Some?
    ensures v.Some? ==> r[key] == v.value
    ensures forall k :: k in p && k != key ==> k in r && r[k] == p[k]
    ensures r.Keys == if v.Some? then p.Keys + {key} else p.Keys
  {
    if v.Some? then p[key := v.value] else p
  }

  /** An optional string field of an object; `undefined` leaves the key out. */
  function OptStr(s: Option<string>): Option<ParamValue> {
    match s
    case Some(t) => Some(PStr(t))
    case None => None
  }

  /** A string that JavaScript tests for truthiness: the empty string counts as absent. */
  function Truthy(s: Option<string>): (r: Option<ParamValue>)
    ensures r.Some? <==> s.Some? && s.value != ""
    ensures r.Some? ==> r.value == PStr(s.value)
  {
    match s
    case Some(t) => if t != "" then Some(PStr(t)) else None
    case None => None
  }

  /** An array filter: `filters.x && { x: filters.x.join(',') }`; an empty array is truthy. */
  function JoinedList(xs: Option<seq<string>>): (r: Option<ParamValue>)
    ensures r.Some? <==> xs.Some?
    ensures xs.Some? ==> r.value == PStr(Join(xs.value, ","))
  {
    match xs
    case Some(l) => Some(PStr(Join(l, ",")))
    case None => None
  }

  /** `` `${sort.field},${sort.direction}` `` when a sort is given. */
  function SortParam(sort: Option<SortConfig>): Option<ParamValue> {
    match sort
    case Some(s) => Some(PStr(s.field + "," + DirectionName(s.direction)))
    case None => None
  }

  function OptList(xs: Option<seq<string>>): Option<ParamValue> {
    match xs
    case Some(l) => Some(PList(l))
    case None => None
  }

  /** The statistics calls' parameters: the date keys when a range is given, otherwise nothing. */
  function DateRangeParams(dateRange: Option<DateRange>): (p: Params)
    ensures p.Keys == if dateRange.Some? then {"startDate", "endDate"} else {}
    ensures dateRange.Some? ==> p["startDate"] == PStr(dateRange.value.start) && p["endDate"] == PStr(dateRange.value.end)
  {
    match dateRange
    case Some(r) => map["startDate" := PStr(r.start), "endDate" := PStr(r.end)]
    case None => map[]
  }
}
