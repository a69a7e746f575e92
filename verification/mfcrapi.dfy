/** The tax authority's reliable-taxpayer service: the status of a VAT number,
    read from the `statusPlatceDPH` element of its SOAP answer. */
module MfcrApi {
  import opened Outcomes

  datatype TaxpayerStatus = NotAPayer | Reliable | Unreliable

  /** The part of the service's answer the status is read from: the
      `statusPlatceDPH` element, when the answer has one, with the value of its
      `nespolehlivyPlatce` ("unreliable payer") attribute, when it has one. */
  datatype StatusElement = Absent | Present(unreliable: Option<string>)

  /** The status text assumed when the answer has no status element. */
  const StatusNotFound := "NENALEZEN"

  /** The status text of an answer; a status element without the attribute is
      the null dereference of the source. */
  function StatusText(element: StatusElement): (r: Result<string>)
    ensures r.Err? <==> element == Present(None)
    ensures r.Err? ==> r.failure == ReliabilityAttributeMissing
    ensures element.Absent? ==> r == Ok(StatusNotFound)
    ensures element.Present? && element.unreliable.Some? ==> r == Ok(element.unreliable.value)
  {
    match element
    case Absent => Ok(StatusNotFound)
    case Present(None) => Err(ReliabilityAttributeMissing)
    case Present(Some(text)) => Ok(text)
  }

  /** The switch over the status text, compared case-sensitively: "ANO" (yes,
      unreliable), "NE" (no, reliable), and any other text not a payer. */
  function StatusOf(text: string): (status: TaxpayerStatus)
    ensures status == Unreliable <==> text == "ANO"
    ensures status == Reliable <==> text == "NE"
    ensures status == NotAPayer <==> text != "ANO" && text != "NE"
  {
    if text == "ANO" then Unreliable
    else if text == "NE" then Reliable
    else NotAPayer
  }

  /** getTaxpayerStatus: `lookup` stands for the request to the service, which is
      made only for a non-empty VAT number. */
  function GetTaxpayerStatus(taxno: string, lookup: string -> StatusElement): (r: Result<TaxpayerStatus>)
    ensures taxno == "" ==> r == Ok(NotAPayer)
    ensures r.Err? <==> taxno != "" && lookup(taxno) == Present(None)
    ensures r.Err? ==> r.failure == ReliabilityAttributeMissing
    ensures r == Ok(Unreliable) <==> taxno != "" && lookup(taxno) == Present(Some("ANO"))
    ensures r == Ok(Reliable) <==> taxno != "" && lookup(taxno) == Present(Some("NE"))
    ensures taxno != "" && lookup(taxno).Absent? ==> r == Ok(NotAPayer)
  {
    if taxno == "" then Ok(NotAPayer)
    else
      match StatusText(lookup(taxno))
      case Err(failure) => Err(failure)
      case Ok(text) => Ok(StatusOf(text))
  }

  /** The status depends on the service's answer for this VAT number only, and
      an empty VAT number on no answer at all. */
  lemma StatusDependsOnAnswer(taxno: string, lookup1: string -> StatusElement, lookup2: string -> StatusElement)
    requires taxno != "" ==> lookup1(taxno) == lookup2(taxno)
    ensures GetTaxpayerStatus(taxno, lookup1) == GetTaxpayerStatus(taxno, lookup2)
  {
  }

  /** The comparison is case-sensitive: a lower-case "ano" does not make the
      payer unreliable, and the answer "NENALEZEN" itself reads as not a payer. */
  lemma StatusExamples(lookup: string -> StatusElement)
    requires lookup("CZ12345678") == Present(Some("ano"))
    requires lookup("CZ87654321") == Present(Some(StatusNotFound))
    ensures GetTaxpayerStatus("CZ12345678", lookup) == Ok(NotAPayer)
    ensures GetTaxpayerStatus("CZ87654321", lookup) == Ok(NotAPayer)
  {
  }
}
