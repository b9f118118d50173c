/** The sizes AES-256-GCM fixes, shared by both components. */
module Gcm {
  import opened Bytes

  const KEY_LEN := 32
  const IV_LEN := 12
  const TAG_LEN := 16

  type Key = s: seq<byte> | |s| == KEY_LEN witness seq(KEY_LEN, _ => 0)
  type Iv = s: seq<byte> | |s| == IV_LEN witness seq(IV_LEN, _ => 0)
  type Tag = s: seq<byte> | |s| == TAG_LEN witness seq(TAG_LEN, _ => 0)
}
