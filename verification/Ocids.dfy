/** Identifiers of cloud resources. */
module Ocids {
  type Ocid = string
}
