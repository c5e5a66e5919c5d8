/** The dashboard's data records and the normaliser that turns the API's
    timestamp-to-value records into ordered series of data points.

    A JavaScript object `Record<string, T>` is modelled as the sequence of its
    entries in `Object.entries` order; the API's keys are timestamps, never
    array indices, so that order is the order of the JSON text. Parsing a
    timestamp (`new Date(timeString)`) is the parameter `parse`, total as in
    the source: an unparseable string is not rejected. */
module Types {
  import opened Calendar

  /** A record of the API with string keys, as its entries in order. */
  type Entries<T> = seq<(string, T)>

  /** One data point: its instant, its reading, and the calendar fields of the instant. */
  datatype PowerDataItem = PowerDataItem(date: int, value: real, month: int, day: int, hour: int)

  /** The data point made of one entry `[timeString, value]`. */
  function ItemOf(entry: (string, real), parse: string -> int): (item: PowerDataItem)
    ensures item.date == parse(entry.0) && item.value == entry.1
    ensures item.month == Month(item.date) && item.day == Date(item.date) && item.hour == Hours(item.date)
    ensures 0 <= item.month < 12 && 1 <= item.day <= 31 && 0 <= item.hour < 24
  {
    var date := parse(entry.0);
    PowerDataItem(date, entry.1, Month(date), Date(date), Hours(date))
  }

  /** `mapData(dataObject)`: one data point per entry, in entry order. */
  function MapData(entries: Entries<real>, parse: string -> int): (items: seq<PowerDataItem>)
    ensures |items| == |entries|
    ensures forall i :: 0 <= i < |entries| ==> items[i] == ItemOf(entries[i], parse)
  {
    if entries == [] then [] else [ItemOf(entries[0], parse)] + MapData(entries[1..], parse)
  }

  /** Normalising two records one after the other is normalising them together:
      nothing is dropped, merged or reordered. */
  lemma {:induction false} MapDataAppend(a: Entries<real>, b: Entries<real>, parse: string -> int)
    ensures MapData(a + b, parse) == MapData(a, parse) + MapData(b, parse)
  {
    if a != [] {
      assert (a + b)[1..] == a[1..] + b;
      MapDataAppend(a[1..], b, parse);
    }
  }

  /** The readings of the series are the values of the record, in the same order. */
  function Values(items: seq<PowerDataItem>): (vs: seq<real>)
    ensures |vs| == |items|
    ensures forall i :: 0 <= i < |items| ==> vs[i] == items[i].value
  {
    if items == [] then [] else [items[0].value] + Values(items[1..])
  }

  function EntryValues(entries: Entries<real>): (vs: seq<real>)
    ensures |vs| == |entries|
    ensures forall i :: 0 <= i < |entries| ==> vs[i] == entries[i].1
  {
    if entries == [] then [] else [entries[0].1] + EntryValues(entries[1..])
  }

  lemma MapDataKeepsValues(entries: Entries<real>, parse: string -> int)
    ensures Values(MapData(entries, parse)) == EntryValues(entries)
  {
  }

  // ------------------------------------------------- the newer API (pp-webapp)

  datatype DailyBreakdown = DailyBreakdown(morning: real, evening: real, afternoon: real, night: real)

  datatype RawProjectedBill = RawProjectedBill(
    projectedBillKwh: real, projectedBillDollars: real, billBreakdown: Entries<real>)
  datatype RawSeries = RawSeries(monthly: Entries<real>, hourly: Entries<real>, daily: Entries<real>)
  datatype RawDayBreakdown = RawDayBreakdown(
    past24h: DailyBreakdown, past48h: DailyBreakdown, past7d: DailyBreakdown)
  datatype RawHourlyMeanTrend = RawHourlyMeanTrend(past24h: real, past7d: real, pctDiff: real)
  datatype RawStatistics = RawStatistics(dayBreakdown: RawDayBreakdown, hourlyMeanTrend: RawHourlyMeanTrend)

  /** The API's response (`RawPowerData`), snake_case keys written in camelCase. */
  datatype RawPowerData = RawPowerData(
    lastUpdated: string,
    lastUpdatedSecondsAgo: real,
    systemd: Entries<bool>,
    projectedBill: RawProjectedBill,
    data: RawSeries,
    statisticsAndTrends: RawStatistics)

  datatype Series = Series(monthly: seq<PowerDataItem>, hourly: seq<PowerDataItem>, daily: seq<PowerDataItem>)
  datatype DayBreakdown = DayBreakdown(past7D: DailyBreakdown, past24H: DailyBreakdown, past48H: DailyBreakdown)
  datatype HourlyTrend = HourlyTrend(past7D: real, past24H: real, pctDiff: real)
  datatype Billing = Billing(projectedBillKWH: real, projectedBillDollars: real, billBreakdown: Entries<real>)

  /** The dashboard's `PowerData`. */
  datatype PowerData = PowerData(
    lastUpdated: string,
    lastUpdatedSecondsAgo: real,
    systemdHealth: Entries<bool>,
    data: Series,
    dayBreakdown: DayBreakdown,
    hourlyTrend: HourlyTrend,
    billing: Billing)

  /** `PowerData.deserialize(apiData)`: the three series normalised, every other
      field copied under its new name. */
  function Deserialize(raw: RawPowerData, parse: string -> int): (pd: PowerData)
    ensures pd.data.monthly == MapData(raw.data.monthly, parse)
    ensures pd.data.hourly == MapData(raw.data.hourly, parse)
    ensures pd.data.daily == MapData(raw.data.daily, parse)
    ensures pd.lastUpdated == raw.lastUpdated && pd.lastUpdatedSecondsAgo == raw.lastUpdatedSecondsAgo
    ensures pd.systemdHealth == raw.systemd
    ensures pd.dayBreakdown.past7D == raw.statisticsAndTrends.dayBreakdown.past7d
    ensures pd.dayBreakdown.past24H == raw.statisticsAndTrends.dayBreakdown.past24h
    ensures pd.dayBreakdown.past48H == raw.statisticsAndTrends.dayBreakdown.past48h
    ensures pd.hourlyTrend.past7D == raw.statisticsAndTrends.hourlyMeanTrend.past7d
    ensures pd.hourlyTrend.past24H == raw.statisticsAndTrends.hourlyMeanTrend.past24h
    ensures pd.hourlyTrend.pctDiff == raw.statisticsAndTrends.hourlyMeanTrend.pctDiff
    ensures pd.billing.projectedBillKWH == raw.projectedBill.projectedBillKwh
    ensures pd.billing.projectedBillDollars == raw.projectedBill.projectedBillDollars
    ensures pd.billing.billBreakdown == raw.projectedBill.billBreakdown
  {
    var st := raw.statisticsAndTrends;
    PowerData(
      raw.lastUpdated,
      raw.lastUpdatedSecondsAgo,
      raw.systemd,
      Series(MapData(raw.data.monthly, parse), MapData(raw.data.hourly, parse), MapData(raw.data.daily, parse)),
      DayBreakdown(st.dayBreakdown.past7d, st.dayBreakdown.past24h, st.dayBreakdown.past48h),
      HourlyTrend(st.hourlyMeanTrend.past7d, st.hourlyMeanTrend.past24h, st.hourlyMeanTrend.pctDiff),
      Billing(raw.projectedBill.projectedBillKwh, raw.projectedBill.projectedBillDollars,
              raw.projectedBill.billBreakdown))
  }

  /** Everything but the series' keys survives deserialisation: two responses
      with the same deserialisation agree on every other field and on the
      readings of every series. */
  lemma DeserializeLosesOnlyKeys(a: RawPowerData, b: RawPowerData, parse: string -> int)
    requires Deserialize(a, parse) == Deserialize(b, parse)
    ensures a.lastUpdated == b.lastUpdated && a.lastUpdatedSecondsAgo == b.lastUpdatedSecondsAgo
    ensures a.systemd == b.systemd && a.projectedBill == b.projectedBill
    ensures a.statisticsAndTrends == b.statisticsAndTrends
    ensures EntryValues(a.data.monthly) == EntryValues(b.data.monthly)
    ensures EntryValues(a.data.hourly) == EntryValues(b.data.hourly)
    ensures EntryValues(a.data.daily) == EntryValues(b.data.daily)
  {
    MapDataKeepsValues(a.data.monthly, parse);
    MapDataKeepsValues(b.data.monthly, parse);
    MapDataKeepsValues(a.data.hourly, parse);
    MapDataKeepsValues(b.data.hourly, parse);
    MapDataKeepsValues(a.data.daily, parse);
    MapDataKeepsValues(b.data.daily, parse);
  }

  // -------------------------------------------------- the older API (webapp)

  datatype ApiDailyBreakdown = ApiDailyBreakdown(
    past24h: DailyBreakdown, past48h: DailyBreakdown, past7d: DailyBreakdown)
  datatype ApiHourlyBreakdown = ApiHourlyBreakdown(past24h: real, past7d: real, pctDiff: real)
  datatype ApiMaths = ApiMaths(dailyBreakdown: ApiDailyBreakdown, hourlyBreakdown: ApiHourlyBreakdown)
  datatype ApiBilling = ApiBilling(
    extrapolatedUsage: real, basicServiceCharge: real, deliveryCharge: real,
    systemBenefitCharge: real, supplyCharge: real, projectedBill: real, taxesAndSurcharges: real)

  /** The older API's response (`PowerDataAPI`). */
  datatype PowerDataApi = PowerDataApi(
    monthly: Entries<real>, hourly: Entries<real>, daily: Entries<real>,
    maths: ApiMaths, billing: ApiBilling)

  datatype LegacyBilling = LegacyBilling(
    projectedBill: real, extrapolatedUsage: real, basicServiceCharge: real, deliveryCharge: real,
    systemBenefitCharge: real, supplyCharge: real, taxesAndSurcharges: real)

  /** The older dashboard's `PowerData`. */
  datatype LegacyPowerData = LegacyPowerData(
    monthly: seq<PowerDataItem>, hourly: seq<PowerDataItem>, daily: seq<PowerDataItem>,
    dailyBreakdown: DayBreakdown, hourlyBreakdown: HourlyTrend, billing: LegacyBilling)

  /** `PowerData.unpackFromAPI(apiData)`: the three series normalised, the
      `maths` and `billing` fields copied one to one. */
  function UnpackFromApi(api: PowerDataApi, parse: string -> int): (pd: LegacyPowerData)
    ensures pd.monthly == MapData(api.monthly, parse)
    ensures pd.hourly == MapData(api.hourly, parse)
    ensures pd.daily == MapData(api.daily, parse)
    ensures pd.dailyBreakdown.past7D == api.maths.dailyBreakdown.past7d
    ensures pd.dailyBreakdown.past24H == api.maths.dailyBreakdown.past24h
    ensures pd.dailyBreakdown.past48H == api.maths.dailyBreakdown.past48h
    ensures pd.hourlyBreakdown.past7D == api.maths.hourlyBreakdown.past7d
    ensures pd.hourlyBreakdown.past24H == api.maths.hourlyBreakdown.past24h
    ensures pd.hourlyBreakdown.pctDiff == api.maths.hourlyBreakdown.pctDiff
    ensures pd.billing.projectedBill == api.billing.projectedBill
    ensures pd.billing.extrapolatedUsage == api.billing.extrapolatedUsage
    ensures pd.billing.basicServiceCharge == api.billing.basicServiceCharge
    ensures pd.billing.deliveryCharge == api.billing.deliveryCharge
    ensures pd.billing.systemBenefitCharge == api.billing.systemBenefitCharge
    ensures pd.billing.supplyCharge == api.billing.supplyCharge
    ensures pd.billing.taxesAndSurcharges == api.billing.taxesAndSurcharges
  {
    var m := api.maths;
    var b := api.billing;
    LegacyPowerData(
      MapData(api.monthly, parse), MapData(api.hourly, parse), MapData(api.daily, parse),
      DayBreakdown(m.dailyBreakdown.past7d, m.dailyBreakdown.past24h, m.dailyBreakdown.past48h),
      HourlyTrend(m.hourlyBreakdown.past7d, m.hourlyBreakdown.past24h, m.hourlyBreakdown.pctDiff),
      LegacyBilling(b.projectedBill, b.extrapolatedUsage, b.basicServiceCharge, b.deliveryCharge,
                    b.systemBenefitCharge, b.supplyCharge, b.taxesAndSurcharges))
  }

  /** Unpacking loses nothing but the series' keys: the `maths` and `billing`
      parts and the readings of every series are determined by the result. */
  lemma UnpackLosesOnlyKeys(a: PowerDataApi, b: PowerDataApi, parse: string -> int)
    requires UnpackFromApi(a, parse) == UnpackFromApi(b, parse)
    ensures a.maths == b.maths && a.billing == b.billing
    ensures EntryValues(a.monthly) == EntryValues(b.monthly)
    ensures EntryValues(a.hourly) == EntryValues(b.hourly)
    ensures EntryValues(a.daily) == EntryValues(b.daily)
  {
    MapDataKeepsValues(a.monthly, parse);
    MapDataKeepsValues(b.monthly, parse);
    MapDataKeepsValues(a.hourly, parse);
    MapDataKeepsValues(b.hourly, parse);
    MapDataKeepsValues(a.daily, parse);
    MapDataKeepsValues(b.daily, parse);
  }
}
