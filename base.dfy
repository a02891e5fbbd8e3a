/** Shared vocabulary: optional values, results, and the fixed-width integer
    types of the Rust sources, written as subset types of int. */
module Base {

  datatype Option<+T> = None | Some(value: T)

  datatype Result<+T, +E> = Ok(value: T) | Err(error: E)

  type U8 = x: int | 0 <= x < 0x100
  type U16 = x: int | 0 <= x < 0x1_0000
  type U32 = x: int | 0 <= x < 0x1_0000_0000
  type U64 = x: int | 0 <= x < 0x1_0000_0000_0000_0000

  /** std::net::SocketAddr: the textual form of its IP address and its port. */
  datatype SocketAddr = SocketAddr(ip: string, port: U16)
}
