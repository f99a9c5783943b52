/** The nametable mirroring arrangements a cartridge selects (src/PpuMemory.ts:3-10). */
module Mirroring {

  type MirrorType = x: int | 0 <= x < 5

  const HORIZONTAL: MirrorType := 0
  const VERTICAL: MirrorType := 1
  const SINGLE_SCREEN: MirrorType := 2
  const SINGLE_SCREEN_2: MirrorType := 3
  const QUADRUPLE_SCREEN: MirrorType := 4
}
