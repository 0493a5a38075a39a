/** constants.go: the program ids the instruction builders use. */
module ProgramIds {
  import opened Keys

  const SYSTEM_PROGRAM_ID: Pubkey := [
    0, 0, 0, 0, 0, 0, 0, 0, 0, 0, 0, 0, 0, 0, 0, 0,
    0, 0, 0, 0, 0, 0, 0, 0, 0, 0, 0, 0, 0, 0, 0, 0]

  const TOKEN_PROGRAM_ID: Pubkey := [
    6, 221, 246, 225, 185, 234, 132, 65, 44, 16, 184, 223, 2, 28, 16, 15,
    200, 135, 25, 7, 195, 9, 195, 53, 53, 222, 32, 156, 52, 23, 99, 191]

  const ASSOCIATED_TOKEN_PROGRAM_ID: Pubkey := [
    140, 151, 35, 17, 132, 146, 123, 119, 181, 241, 128, 17, 143, 204, 104, 52,
    20, 183, 124, 82, 30, 90, 119, 8, 28, 247, 29, 95, 96, 106, 83, 132]

  const BPF_LOADER_PROGRAM_ID: Pubkey := [
    2, 197, 178, 216, 231, 45, 42, 178, 55, 139, 51, 119, 73, 71, 125, 120,
    122, 208, 19, 239, 94, 121, 232, 49, 230, 137, 68, 140, 0, 0, 0, 0]

  lemma ProgramIdsDistinct()
    ensures SYSTEM_PROGRAM_ID != TOKEN_PROGRAM_ID && SYSTEM_PROGRAM_ID != ASSOCIATED_TOKEN_PROGRAM_ID
    ensures SYSTEM_PROGRAM_ID != BPF_LOADER_PROGRAM_ID && TOKEN_PROGRAM_ID != ASSOCIATED_TOKEN_PROGRAM_ID
    ensures TOKEN_PROGRAM_ID != BPF_LOADER_PROGRAM_ID && ASSOCIATED_TOKEN_PROGRAM_ID != BPF_LOADER_PROGRAM_ID
  {
    assert SYSTEM_PROGRAM_ID[0] == 0 && TOKEN_PROGRAM_ID[0] == 6;
    assert ASSOCIATED_TOKEN_PROGRAM_ID[0] == 140 && BPF_LOADER_PROGRAM_ID[0] == 2;
  }
}
