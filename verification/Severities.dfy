/** The severity scale that findings and cached vulnerabilities share. */
module Severities {
  datatype Severity = Critical | High | Medium | Low | Info
}
