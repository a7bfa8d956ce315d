/** The integer widths of core/aliasing.h and the messages of l2/message.h. */
module Messages {

  type u32 = x: int | 0 <= x < 0x1_0000_0000
  type u64 = x: int | 0 <= x < 0x1_0000_0000_0000_0000
  type i64 = x: int | -0x8000_0000_0000_0000 <= x < 0x8000_0000_0000_0000

  const I64_MAX: int := 0x7fff_ffff_ffff_ffff

  datatype Option<+T> = None | Some(value: T)

  /** A price and its absolute quantity, both fixed-point; quantity 0 removes the level. */
  datatype Level = Level(price: i64, quantity: i64)

  datatype Kind = Update | Snapshot

  datatype Message = Message(kind: Kind, checksum: u32, venueTime: i64, captureTime: i64,
                             symbol: string, buys: seq<Level>, sells: seq<Level>)

  /** What interrupted a pair: its connection ended, or its book failed a checksum. */
  datatype Gap = Disconnected | Resubscribing

  /** Digits a pair's prices and quantities are scaled by. */
  datatype Precision = Precision(price: nat, quantity: nat)
}
