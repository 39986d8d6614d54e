/**
 * What the sentinel sees of libbitcoin's networking layer: error codes and
 * channel identities.  The layer itself (thread pool, hosts, handshake,
 * network, protocol) is not part of this model.
 */
module Network {

  /** A `std::error_code`: either no error, or an error and its `message()`. */
  datatype ErrorCode = Success | Failure(message: string)

  /** The identity of one `bc::channel_ptr`, stable while the channel lives. */
  datatype Channel = Channel(id: nat)

  /** An optional value, such as a setting that has not been made yet. */
  datatype Option<T> = None | Some(value: T)
}
