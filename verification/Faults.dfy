/**
 * Which steps of one call fail. A call takes one `Faults`, and it fails at the first
 * step on its path that the function picks out.
 */
module Faults {
  import opened Crypto

  datatype Step =
    | ReadClient | ReadTarget | ReadTopic // the lookups that open a service call
    | Lookup | WriteRow | Clear | DeleteRow | Join | Recheck | Commit // inside one database call
    | BeginTx | CountRows | CommitTx // around NewTopic's transaction
    | CountLost // the association of a counted row cannot be read, and the count says 0
    | ReadPage(offset: nat) // one page of a fan-out
    | Encrypt | Build | BuildPubKey | CommandType | NewKey // library calls
    | Publish(to: Bytes) | Subscribe | Unsubscribe // broker calls

  type Faults = Step -> bool
}
