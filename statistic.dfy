/**
 * The statistic records of a threshold: the stored row, the row to insert and
 * their JSON forms, and the field-preserving conversions between them.
 */
module Statistic {
  import opened Wrappers

  datatype Uuid = Uuid(bits: nat)

  /** The statistical test a threshold runs; its variants are not part of this model. */
  datatype StatisticKind = StatisticKind(name: string)

  /** Seconds since the epoch. */
  datatype DateTime = DateTime(seconds: int)

  datatype ApiError = BadConversion(value: int)

  const U32_MODULUS: nat := 0x1_0000_0000
  const I64_MIN: int := -0x8000_0000_0000_0000
  const I64_MAX: int := 0x7fff_ffff_ffff_ffff

  type U32 = w: int | 0 <= w < U32_MODULUS
  type I64 = w: int | I64_MIN <= w <= I64_MAX

  /** The stored statistic row. Sample sizes and boundaries are carried as they are. */
  datatype QueryStatistic = QueryStatistic(
    id: int, uuid: Uuid, threshold_id: int, test: StatisticKind,
    min_sample_size: Option<nat>, max_sample_size: Option<nat>, window: Option<I64>,
    lower_boundary: Option<real>, upper_boundary: Option<real>, created: DateTime)

  /** A statistic row about to be inserted. */
  datatype InsertStatistic = InsertStatistic(
    uuid: Uuid, threshold_id: int, test: StatisticKind,
    min_sample_size: Option<nat>, max_sample_size: Option<nat>, window: Option<I64>,
    lower_boundary: Option<real>, upper_boundary: Option<real>, created: DateTime)

  /** A statistic as the API returns it; the window is an unsigned 32-bit number of seconds. */
  datatype JsonStatistic = JsonStatistic(
    uuid: Uuid, threshold: Uuid, test: StatisticKind,
    min_sample_size: Option<nat>, max_sample_size: Option<nat>, window: Option<U32>,
    lower_boundary: Option<real>, upper_boundary: Option<real>, created: DateTime)

  /** A new statistic as the API receives it. */
  datatype JsonNewStatistic = JsonNewStatistic(
    test: StatisticKind, min_sample_size: Option<nat>, max_sample_size: Option<nat>, window: Option<U32>,
    lower_boundary: Option<real>, upper_boundary: Option<real>)

  /** The settings every form of a statistic carries unchanged. */
  datatype Settings = Settings(
    test: StatisticKind, min_sample_size: Option<nat>, max_sample_size: Option<nat>,
    lower_boundary: Option<real>, upper_boundary: Option<real>)

  function QuerySettings(s: QueryStatistic): Settings
  {
    Settings(s.test, s.min_sample_size, s.max_sample_size, s.lower_boundary, s.upper_boundary)
  }

  function InsertSettings(s: InsertStatistic): Settings
  {
    Settings(s.test, s.min_sample_size, s.max_sample_size, s.lower_boundary, s.upper_boundary)
  }

  function JsonSettings(s: JsonStatistic): Settings
  {
    Settings(s.test, s.min_sample_size, s.max_sample_size, s.lower_boundary, s.upper_boundary)
  }

  function NewSettings(s: JsonNewStatistic): Settings
  {
    Settings(s.test, s.min_sample_size, s.max_sample_size, s.lower_boundary, s.upper_boundary)
  }

  /** The conversion of a stored `i64` window to a `u32`, which may fail. */
  type MapU32 = Option<I64> -> Result<Option<U32>, ApiError>

  /** The lossless widening of a `u32` window to `i64`. */
  function WidenWindow(w: Option<U32>): (r: Option<I64>)
    ensures r.None? <==> w.None?
    ensures r.Some? ==> r.value == w.value
  {
    match w
    case None => None
    case Some(v) => Some(v)
  }

  /** `QueryStatistic::into_json_for_threshold`: the window conversion is the only step that can fail. */
  function IntoJsonForThreshold(s: QueryStatistic, threshold: Uuid, mapU32: MapU32): (r: Result<JsonStatistic, ApiError>)
    ensures r.Ok? <==> mapU32(s.window).Ok?
    ensures r.Err? ==> r.error == mapU32(s.window).error
    ensures r.Ok? ==> && JsonSettings(r.value) == QuerySettings(s)
                      && r.value.uuid == s.uuid && r.value.created == s.created
                      && r.value.threshold == threshold
                      && r.value.window == mapU32(s.window).value
  {
    var window :- mapU32(s.window);
    Ok(JsonStatistic(s.uuid, threshold, s.test, s.min_sample_size, s.max_sample_size, window,
                     s.lower_boundary, s.upper_boundary, s.created))
  }

  /** `From<QueryStatistic> for InsertStatistic`: a copy of the row under a new uuid. */
  function InsertFromQuery(s: QueryStatistic, newUuid: Uuid): (r: InsertStatistic)
    ensures InsertSettings(r) == QuerySettings(s)
    ensures r.threshold_id == s.threshold_id && r.window == s.window && r.created == s.created
    ensures r.uuid == newUuid
  {
    InsertStatistic(newUuid, s.threshold_id, s.test, s.min_sample_size, s.max_sample_size, s.window,
                    s.lower_boundary, s.upper_boundary, s.created)
  }

  /** `InsertStatistic::from_json`, with the new uuid and the current time as parameters; it never fails. */
  function InsertFromJson(threshold_id: int, json: JsonNewStatistic, newUuid: Uuid, now: DateTime): (r: Result<InsertStatistic, ApiError>)
    ensures r.Ok?
    ensures InsertSettings(r.value) == NewSettings(json)
    ensures r.value.threshold_id == threshold_id && r.value.uuid == newUuid && r.value.created == now
    ensures r.value.window.None? <==> json.window.None?
    ensures r.value.window.Some? ==> r.value.window.value == json.window.value
  {
    Ok(InsertStatistic(newUuid, threshold_id, json.test, json.min_sample_size, json.max_sample_size,
                       WidenWindow(json.window), json.lower_boundary, json.upper_boundary, now))
  }

  /** The row a database stores for an insert, under the id it assigns. */
  function Stored(s: InsertStatistic, id: int): QueryStatistic
  {
    QueryStatistic(id, s.uuid, s.threshold_id, s.test, s.min_sample_size, s.max_sample_size, s.window,
                   s.lower_boundary, s.upper_boundary, s.created)
  }

  /** Copying a row and storing the copy gives back the row, except for its id and uuid. */
  lemma CopyKeepsRow(s: QueryStatistic, newUuid: Uuid)
    ensures Stored(InsertFromQuery(s, newUuid), s.id) == s.(uuid := newUuid)
  {
  }

  /**
   * A statistic created from JSON and stored converts back to JSON whenever the window
   * conversion accepts every `u32`, and it then reports the settings and window it was created with.
   */
  lemma CreatedStatisticRoundTrip(threshold_id: int, json: JsonNewStatistic, newUuid: Uuid, now: DateTime,
                                  id: int, threshold: Uuid, mapU32: MapU32)
    requires forall w: Option<U32> :: mapU32(WidenWindow(w)) == Ok(w)
    ensures var stored := Stored(InsertFromJson(threshold_id, json, newUuid, now).value, id);
      && IntoJsonForThreshold(stored, threshold, mapU32).Ok?
      && JsonSettings(IntoJsonForThreshold(stored, threshold, mapU32).value) == NewSettings(json)
      && IntoJsonForThreshold(stored, threshold, mapU32).value.window == json.window
      && IntoJsonForThreshold(stored, threshold, mapU32).value.uuid == newUuid
      && IntoJsonForThreshold(stored, threshold, mapU32).value.created == now
  {
    assert mapU32(WidenWindow(json.window)) == Ok(json.window);
  }

  /** A checked `i64` to `u32` conversion: one window conversion the round trip above accepts. */
  function CheckedU32(w: Option<I64>): (r: Result<Option<U32>, ApiError>)
    ensures r.Ok? <==> w.None? || 0 <= w.value < U32_MODULUS
    ensures r.Ok? && w.Some? ==> r.value == Some(w.value)
    ensures r.Ok? && w.None? ==> r.value.None?
  {
    match w
    case None => Ok(None)
    case Some(v) => if 0 <= v < U32_MODULUS then Ok(Some(v)) else Err(BadConversion(v))
  }

  /** The checked conversion undoes the widening, so it meets the round trip's requirement. */
  lemma CheckedU32UndoesWidening(w: Option<U32>)
    ensures CheckedU32(WidenWindow(w)) == Ok(w)
  {
  }

  /** Every window a statistic created from JSON holds fits an unsigned 32-bit number. */
  lemma CreatedWindowFitsU32(threshold_id: int, json: JsonNewStatistic, newUuid: Uuid, now: DateTime)
    ensures var w := InsertFromJson(threshold_id, json, newUuid, now).value.window;
      w.Some? ==> 0 <= w.value < U32_MODULUS
  {
  }
}
