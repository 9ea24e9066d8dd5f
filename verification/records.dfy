/** The current-condition record the data service returns for one site and
    parameter (the fields requested in `cwisProperties`). */
module Records {
  import opened Wrappers

  datatype Record = Record(
    agencyCode: string,
    siteNumber: string,
    siteName: string,
    latitude: real,
    longitude: real,
    currentConditionId: int,
    parameterCode: string,
    parameterName: string,
    parameterUnit: string,
    timeLocal: string,
    timeZoneCode: string,
    value: Option<real>,                    // `Value`, null when absent
    rateOfChange: Option<real>,             // `RateOfChangeUnitPerHour`, nullable
    statisticStatusCode: Option<string>,    // `StatisticStatusCode`, nullable
    floodStageStatusCode: Option<string>)   // `FloodStageStatusCode`, nullable

  /** A site's identity: two records with the same agency code and site
      number describe the same site. */
  function SiteKey(r: Record): (string, string) {
    (r.agencyCode, r.siteNumber)
  }
}
