/** The capability record that watchers report and the gateway catalogues. */
module Inventory {
  datatype Action = Unspecified | Upsert | Delete

  /** `rest` stands for every field outside the record's identity; `bytes` is its encoded proto size. */
  datatype Capability = Capability(kind: string, group: string, name: string, version: string,
                                   action: Action, rest: string, bytes: nat)
}
