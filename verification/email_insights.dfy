/**
 * The table behind the e-mail insights page: the `topDomains` chart rows turned
 * into records, each domain classified and coloured by its class.
 */
module EmailInsights {
  import opened Wrappers

  /** A row of `topDomains`: domain, user count, customer count. The first row is the header. */
  datatype DomainRow = DomainRow(domain: string, users: int, customers: int)

  /** A record of the domain table. */
  datatype DomainRecord = DomainRecord(domain: string, users: int, customers: int, totalUsage: int, kind: string)

  const BusinessDomains: seq<string> := ["company.com", "enterprise.org", "business.net"]
  const TechDomains: seq<string> := ["tech.co", "startup.io"]

  /** `getDomainType`: business domains first, then tech domains, else "Other". */
  function GetDomainType(domain: string): (kind: string)
    ensures domain in BusinessDomains ==> kind == "Business"
    ensures domain !in BusinessDomains && domain in TechDomains ==> kind == "Technology"
    ensures domain !in BusinessDomains && domain !in TechDomains ==> kind == "Other"
    ensures kind in {"Business", "Technology", "Other"}
  {
    if domain in BusinessDomains then "Business"
    else if domain in TechDomains then "Technology"
    else "Other"
  }

  /** `getTypeColor`: one colour per class, green for anything else. */
  function GetTypeColor(kind: string): (color: string)
    ensures kind == "Business" ==> color == "#3f51b5"
    ensures kind == "Technology" ==> color == "#ff9800"
    ensures kind != "Business" && kind != "Technology" ==> color == "#4caf50"
  {
    match kind
    case "Business" => "#3f51b5"
    case "Technology" => "#ff9800"
    case _ => "#4caf50"
  }

  /** One row of the table: the three columns copied, their usage added up, the domain classified. */
  function ToRecord(row: DomainRow): (r: DomainRecord)
    ensures r.domain == row.domain && r.users == row.users && r.customers == row.customers
    ensures r.totalUsage == row.users + row.customers
    ensures r.kind == GetDomainType(row.domain)
  {
    DomainRecord(row.domain, row.users, row.customers, row.users + row.customers, GetDomainType(row.domain))
  }

  /** `getDomainData`: nothing without `topDomains`; otherwise one record per row after the header, in order. */
  function GetDomainData(topDomains: Option<seq<DomainRow>>): (records: seq<DomainRecord>)
    ensures topDomains.None? ==> records == []
    ensures topDomains.Some? ==> |records| == if |topDomains.value| > 0 then |topDomains.value| - 1 else 0
    ensures topDomains.Some? ==> forall i :: 0 <= i < |records| ==> records[i] == ToRecord(topDomains.value[i + 1])
  {
    match topDomains
    case None => []
    case Some(rows) =>
      var body := if |rows| > 0 then rows[1..] else [];
      seq(|body|, i requires 0 <= i < |body| => ToRecord(body[i]))
  }

  /** Every domain gets the colour of its class, and the domains of the two lists get distinct colours. */
  lemma DomainColors(domain: string)
    ensures domain in BusinessDomains ==> GetTypeColor(GetDomainType(domain)) == "#3f51b5"
    ensures domain in TechDomains ==> GetTypeColor(GetDomainType(domain)) == "#ff9800"
    ensures domain !in BusinessDomains && domain !in TechDomains ==> GetTypeColor(GetDomainType(domain)) == "#4caf50"
  {
    assert forall d :: d in TechDomains ==> d !in BusinessDomains;
  }
}
