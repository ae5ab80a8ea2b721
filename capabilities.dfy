/**
 * The capabilities a group is wired with (the `Getter` interface and the
 * `PeerPicker` / `PeerGetter` interfaces of peers.go), as function values.
 * An injected function stands for whatever the user's loader or the remote
 * node answers at the time of the call.
 */
module Capabilities {
  import opened Types

  /** Getter.Get(key): the user's loader, the source of truth on a miss. */
  type Getter = string -> Result<seq<byte>>

  /** PeerGetter.Get(group, key): fetch a value from one remote node. */
  datatype PeerGetter = PeerGetter(get: (string, string) -> Result<seq<byte>>)

  /** PeerPicker.PeerPick(key): the remote node owning `key`, or None for "load it here". */
  datatype PeerPicker = PeerPicker(pick: string -> Option<PeerGetter>)
}
