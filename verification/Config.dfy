/** Sizes fixed by the interface (src/vchiq/config.rs) and the option type used throughout. */
module Config {
  const SLOT_SIZE: nat := 4096
  const SLOT_QUEUE_LEN: nat := 64
  const HEADER_SIZE: nat := 8
  const MAX_SERVICES: nat := 4096
  const MAX_COMPLETIONS: nat := 128
  const MSG_QUEUE_SIZE: nat := 128

  datatype Option<+T> = None | Some(value: T)
}
