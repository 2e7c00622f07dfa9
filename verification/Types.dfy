/** Values shared by the token plugin and the fees plugin. */
module Types {

  datatype Option<+T> = None | Some(value: T)

  datatype Result<+T> = Ok(value: T) | Err(error: Error)

  /** The exceptions the modelled code raises or turns into an answer. */
  datatype Error =
    | AddressNotFound        // UTXOAddressNotFound, a UTXONotFound
    | OutputNotFound         // UTXONotFound
    | MalformedAmounts       // UTXOError about the shape of a stored string
    | NotANumber             // ValueError of int()
    | IndexOutOfRange        // IndexError
    | InvalidFunds | ExtraFunds | InsufficientFunds
    | FeesRequired | FeesNotRequired
    | TxnRootMismatch        // plenum's _commit: ledger root differs from the batch's
    | CacheRootMismatch      // TokenValueError of commit_to_utxo_cache
    | NothingPending

  /** One `seqNo, amount` pair of the per-address index. */
  datatype Entry = Entry(seqNo: int, amount: int)

  /** The name of an output: the address paid and the transaction that paid it. */
  datatype Ref = Ref(address: string, seqNo: int)

  /** An element of a request's `outputs`; the ledger supplies its seqNo later. */
  datatype Payment = Payment(address: string, amount: int)

  datatype Output = Output(address: string, seqNo: int, amount: int)
}
