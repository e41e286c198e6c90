/** The two networks every payment record names. */
module Networks {
  datatype Network = Local | SolanaDevnet

  function Name(n: Network): string {
    match n
    case Local => "LOCAL"
    case SolanaDevnet => "SOLANA_DEVNET"
  }
}
