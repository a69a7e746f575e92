/** Optional values, and results that carry either a value or one of the
    exceptions the modelled code throws. */
module Outcomes {

  datatype Option<+T> = None | Some(value: T)

  /** The exceptions of the modelled code, one constructor per way of failing. */
  datatype Failure =
    | IcoInvalid                   // Company.formatIco: "ICO is invalid."
    | MultipleRecordsFound         // AresAPI.getCompanyByIdno: "Multiple records found."
    | RecordCountUnreadable        // Pocet_zaznamu absent (null dereference) or not an integer (int.Parse)
    | ReliabilityAttributeMissing  // statusPlatceDPH present without nespolehlivyPlatce (null dereference)

  datatype Result<+T> = Ok(value: T) | Err(failure: Failure)
}
