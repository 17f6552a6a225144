/** The fatal errors of the pipeline (the `errors` module of `main.rs`,
    reduced to the two causes the modelled code can raise). */
module Errors {

  datatype Error =
    | SaltQueryFailed   // the first fleet query failed (`get_minions_data_from_salt`)
    | JsonDecodeFailed  // the filtered report is not JSON (`serde_json::from_str`)
}
