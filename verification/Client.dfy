/** The client's compartment (pkg/oci/client/client.go). */
module Client {
  import opened Wrappers

  const TIMEOUT_SECONDS: nat := 180

  class Configuration {
    var compartmentOCID: string
    const metadata: Option<string>

    constructor (compartmentOCID: string, metadata: Option<string>)
      ensures this.compartmentOCID == compartmentOCID && this.metadata == metadata
    {
      this.compartmentOCID, this.metadata := compartmentOCID, metadata;
    }

    /** The compartment every request uses: the configured one, else the instance's own; None when there is neither. */
    ghost function Effective(): Option<string>
      reads this`compartmentOCID
    {
      if compartmentOCID != "" then Some(compartmentOCID) else metadata
    }

    /** Filled in on first use; None stands for the fatal exit.  Asking changes no later answer. */
    method CompartmentOCID() returns (r: Option<string>)
      modifies this`compartmentOCID
      ensures r == old(Effective()) == Effective()
      ensures r == if old(compartmentOCID) != "" then Some(old(compartmentOCID)) else metadata
      ensures r.Some? ==> compartmentOCID == r.value
    {
      if compartmentOCID == "" {
        if metadata.None? {
          return None;
        }
        compartmentOCID := metadata.value;
      }
      return Some(compartmentOCID);
    }
  }
}
