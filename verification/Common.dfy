/** What several components share: machine integers, bytes, the sizes of a disk block and of a
    page, and the budget of one file system operation (kernel/fs.h:6, kernel/riscv.h:335,
    kernel/param.h:9). */
module Common {

  const UINT32 := 0x1_0000_0000
  const BSIZE := 1024
  const PGSIZE := 4096
  const MAXOPBLOCKS := 10

  type Byte = x: int | 0 <= x < 256
  type Uint = x: int | 0 <= x < UINT32

  datatype Option<T> = None | Some(value: T)
}
