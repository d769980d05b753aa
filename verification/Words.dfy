/** The fixed words of the bridge's projection, as UTF-8. */
module Words {
  import opened Texts

  /* "cancelled" */
  const CANCELLED: Bytes := [0x63, 0x61, 0x6E, 0x63, 0x65, 0x6C, 0x6C, 0x65, 0x64]
  /* "error" */
  const ERROR: Bytes := [0x65, 0x72, 0x72, 0x6F, 0x72]
  /* "refusal" */
  const REFUSAL: Bytes := [0x72, 0x65, 0x66, 0x75, 0x73, 0x61, 0x6C]
  /* "max_tokens" */
  const MAX_TOKENS: Bytes := [0x6D, 0x61, 0x78, 0x5F, 0x74, 0x6F, 0x6B, 0x65, 0x6E, 0x73]
  /* "max_turn_requests" */
  const MAX_TURN_REQUESTS: Bytes := [0x6D, 0x61, 0x78, 0x5F, 0x74, 0x75, 0x72, 0x6E, 0x5F, 0x72, 0x65, 0x71, 0x75, 0x65,
                                     0x73, 0x74, 0x73]
  /* "No longer reporting" */
  const NO_LONGER_REPORTING: Bytes := [0x4E, 0x6F, 0x20, 0x6C, 0x6F, 0x6E, 0x67, 0x65, 0x72, 0x20, 0x72, 0x65, 0x70,
                                       0x6F, 0x72, 0x74, 0x69, 0x6E, 0x67]
  /* "Working" */
  const WORKING: Bytes := [0x57, 0x6F, 0x72, 0x6B, 0x69, 0x6E, 0x67]
  /* "Needs your answer" */
  const NEEDS_YOUR_ANSWER: Bytes := [0x4E, 0x65, 0x65, 0x64, 0x73, 0x20, 0x79, 0x6F, 0x75, 0x72, 0x20, 0x61, 0x6E, 0x73,
                                     0x77, 0x65, 0x72]
  /* "Stopped" */
  const STOPPED: Bytes := [0x53, 0x74, 0x6F, 0x70, 0x70, 0x65, 0x64]
  /* "Failed" */
  const FAILED: Bytes := [0x46, 0x61, 0x69, 0x6C, 0x65, 0x64]
  /* "Declined" */
  const DECLINED: Bytes := [0x44, 0x65, 0x63, 0x6C, 0x69, 0x6E, 0x65, 0x64]
  /* "Hit its limit" */
  const HIT_ITS_LIMIT: Bytes := [0x48, 0x69, 0x74, 0x20, 0x69, 0x74, 0x73, 0x20, 0x6C, 0x69, 0x6D, 0x69, 0x74]
  /* "Done" */
  const DONE: Bytes := [0x44, 0x6F, 0x6E, 0x65]
  /* "Ended" */
  const ENDED: Bytes := [0x45, 0x6E, 0x64, 0x65, 0x64]
  /* " tool call" */
  const TOOL_CALL: Bytes := [0x20, 0x74, 0x6F, 0x6F, 0x6C, 0x20, 0x63, 0x61, 0x6C, 0x6C]
  /* " tool calls" */
  const TOOL_CALLS: Bytes := [0x20, 0x74, 0x6F, 0x6F, 0x6C, 0x20, 0x63, 0x61, 0x6C, 0x6C, 0x73]
  /* " message" */
  const MESSAGE: Bytes := [0x20, 0x6D, 0x65, 0x73, 0x73, 0x61, 0x67, 0x65]
  /* " messages" */
  const MESSAGES: Bytes := [0x20, 0x6D, 0x65, 0x73, 0x73, 0x61, 0x67, 0x65, 0x73]
  /* " · " */
  const MIDDLE_DOT: Bytes := [0x20, 0xC2, 0xB7, 0x20]
  /* "\n\n" */
  const PARAGRAPH: Bytes := [0x0A, 0x0A]
  /* "Asked: " */
  const ASKED: Bytes := [0x41, 0x73, 0x6B, 0x65, 0x64, 0x3A, 0x20]
  /* "Now: " */
  const NOW: Bytes := [0x4E, 0x6F, 0x77, 0x3A, 0x20]
  /* "Result: " */
  const RESULT_IS: Bytes := [0x52, 0x65, 0x73, 0x75, 0x6C, 0x74, 0x3A, 0x20]
  /* "Error: " */
  const ERROR_IS: Bytes := [0x45, 0x72, 0x72, 0x6F, 0x72, 0x3A, 0x20]
  /* "Subagent" */
  const SUBAGENT: Bytes := [0x53, 0x75, 0x62, 0x61, 0x67, 0x65, 0x6E, 0x74]
  /* "Subagent: " */
  const SUBAGENT_IS: Bytes := [0x53, 0x75, 0x62, 0x61, 0x67, 0x65, 0x6E, 0x74, 0x3A, 0x20]
  /* "read" */
  const READ: Bytes := [0x72, 0x65, 0x61, 0x64]
  /* "edit" */
  const EDIT: Bytes := [0x65, 0x64, 0x69, 0x74]
  /* "delete" */
  const DELETE: Bytes := [0x64, 0x65, 0x6C, 0x65, 0x74, 0x65]
  /* "move" */
  const MOVE: Bytes := [0x6D, 0x6F, 0x76, 0x65]
  /* "search" */
  const SEARCH: Bytes := [0x73, 0x65, 0x61, 0x72, 0x63, 0x68]
  /* "execute" */
  const EXECUTE: Bytes := [0x65, 0x78, 0x65, 0x63, 0x75, 0x74, 0x65]
  /* "think" */
  const THINK: Bytes := [0x74, 0x68, 0x69, 0x6E, 0x6B]
  /* "fetch" */
  const FETCH: Bytes := [0x66, 0x65, 0x74, 0x63, 0x68]
  /* "switch_mode" */
  const SWITCH_MODE: Bytes := [0x73, 0x77, 0x69, 0x74, 0x63, 0x68, 0x5F, 0x6D, 0x6F, 0x64, 0x65]
  /* "other" */
  const OTHER: Bytes := [0x6F, 0x74, 0x68, 0x65, 0x72]
}
