/** What several modules share. */
module Common {
  datatype Option<+T> = None | Some(value: T)

  /** UEs that a user plane function has room for (5gc/upf_u/upf_u_trtcm.h:31). */
  const MAX_UE := 256
}
