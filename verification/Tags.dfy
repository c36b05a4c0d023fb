/** The identifier octets the SGP.32 structures use (asn1/tags.go and the context tags of each structure). */
module Tags {
  import opened Tlv

  const SEQUENCE: Tag := [0x30]
  const INTEGER: Tag := [0x02]
  const NULL: Tag := [0x05]
  const UTF8: Tag := [0x0c]
  const EID: Tag := [0x5a]
  const SIGNATURE: Tag := [0x5f, 0x37]
  const EUICC_PACKAGE: Tag := [0xbf, 0x51]
  const IPA_EUICC_DATA: Tag := [0xbf, 0x52]
  const EIM_ACK: Tag := [0xbf, 0x53]
  const PROFILE_INFO_LIST: Tag := [0xbf, 0x2d]
  const PROFILE_INFO: Tag := [0xe3]
  const PROFILE_STATE: Tag := [0x9f, 0x70]
  const FALLBACK_ATTRIBUTE: Tag := [0x9f, 0x26]
  const SET_DEFAULT_DP: Tag := [0xbf, 0x65]
  const NOTIFICATION_META: Tag := [0xbf, 0x2f]
  const PROFILE_INSTALL: Tag := [0xbf, 0x37]
  const PROFILE_INSTALL_DATA: Tag := [0xbf, 0x27]
  const EUICC_INFO1: Tag := [0xbf, 0x20]
  const EUICC_INFO2: Tag := [0xbf, 0x22]

  // Context-specific, primitive: P0 is [0].
  const P0: Tag := [0x80]
  const P1: Tag := [0x81]
  const P2: Tag := [0x82]
  const P3: Tag := [0x83]
  const P4: Tag := [0x84]
  const P7: Tag := [0x87]
  const P8: Tag := [0x88]
  const P9: Tag := [0x89]
  const P15: Tag := [0x8f]

  // Context-specific, constructed: C0 is [0].
  const C0: Tag := [0xa0]
  const C1: Tag := [0xa1]
  const C2: Tag := [0xa2]
  const C3: Tag := [0xa3]
  const C4: Tag := [0xa4]
  const C5: Tag := [0xa5]
  const C6: Tag := [0xa6]
  const C7: Tag := [0xa7]
  const C8: Tag := [0xa8]
  const C9: Tag := [0xa9]
  const C10: Tag := [0xaa]
  const C11: Tag := [0xab]
}
