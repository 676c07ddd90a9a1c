/** Shader bytecode handling: the kernel-variant switch of createShaderModule
    and the padding done by VkFFTReadShader. The file system is a parameter:
    `files` gives the bytes stored at each path. */
module Shader {
  import opened Vulkan

  /** The file holding each kernel variant's SPIR-V: 0 is the transposition
      without bank conflicts, 1 the transposition with bank conflicts, 2 the
      pure transfer. Any other identifier names no file. */
  function ShaderFileName(shaderID: uint32): (name: Option<string>)
    ensures name.Some? <==> shaderID <= 2
  {
    if shaderID == 0 then Some("transposition_no_bank_conflicts.spv")
    else if shaderID == 1 then Some("transposition_bank_conflicts.spv")
    else if shaderID == 2 then Some("transfer.spv")
    else None
  }

  /** The three variants read three different files. */
  lemma ShaderFilesDistinct(a: uint32, b: uint32)
    requires a <= 2 && b <= 2 && a != b
    ensures ShaderFileName(a) != ShaderFileName(b)
  {
    assert |ShaderFileName(0).value| == 35;
    assert |ShaderFileName(1).value| == 32;
    assert |ShaderFileName(2).value| == 12;
  }

  /** The byte length of the buffer VkFFTReadShader allocates for a file of
      `filesize` bytes: the file size rounded up to a whole number of 32-bit
      words. */
  function PaddedLength(filesize: nat): (padded: nat)
    ensures padded % 4 == 0
    ensures filesize <= padded < filesize + 4
  {
    (filesize + 3) / 4 * 4
  }

  /** No smaller multiple of 4 holds the file. */
  lemma PaddedLengthIsLeast(filesize: nat, m: nat)
    requires m % 4 == 0 && filesize <= m
    ensures PaddedLength(filesize) <= m
  {
  }

  /** The zero-fill loop of VkFFTReadShader: bytes `from` onwards become 0,
      the bytes before them keep what they held. */
  method ZeroFillTail(str: array<bv8>, from: nat)
    requires from <= str.Length
    modifies str
    ensures str[..from] == old(str[..from])
    ensures forall i :: from <= i < str.Length ==> str[i] == 0
  {
    var i := from;
    while i < str.Length
      invariant from <= i <= str.Length
      invariant str[..from] == old(str[..from])
      invariant forall k :: from <= k < i ==> str[k] == 0
    {
      str[i] := 0;
      i := i + 1;
    }
  }

  /** VkFFTReadShader for a file with contents `file`: a buffer of the padded
      length whose first bytes are the file and whose tail is zero. The length
      is reported through a `uint32_t`. */
  method ReadShader(file: seq<bv8>) returns (code: array<bv8>, length: uint32)
    ensures fresh(code) && code.Length == PaddedLength(|file|)
    ensures code[..|file|] == file
    ensures forall i :: |file| <= i < code.Length ==> code[i] == 0
    ensures length == Wrap32(PaddedLength(|file|))
  {
    var filesizepadded := PaddedLength(|file|);
    code := new bv8[filesizepadded];
    // fread of the whole file into the start of the buffer
    forall i | 0 <= i < |file| {
      code[i] := file[i];
    }
    ZeroFillTail(code, |file|);
    length := Wrap32(filesizepadded);
  }

  /** What createShaderModule hands to vkCreateShaderModule. */
  datatype ShaderModuleCreateInfo = ShaderModuleCreateInfo(path: string, code: seq<bv8>, codeSize: uint32)

  /** createShaderModule: selects the file for `shaderID` under `shaderDir`,
      reads and pads it, and creates the module from it. An unknown identifier
      fails with VK_ERROR_INITIALIZATION_FAILED before any file is touched;
      otherwise the result is the driver's. */
  method CreateShaderModule(shaderDir: string, shaderID: uint32, files: string -> seq<bv8>, created: Created)
    returns (res: VkResult, shaderModule: Option<Handle>, info: Option<ShaderModuleCreateInfo>)
    ensures shaderID > 2 ==> res == ErrorInitializationFailed && shaderModule == None && info == None
    ensures shaderID <= 2 ==>
      && res == created.result
      && info.Some?
      && info.value.path == shaderDir + ShaderFileName(shaderID).value
      && var file := files(info.value.path);
         && |info.value.code| == PaddedLength(|file|)
         && info.value.code[..|file|] == file
         && (forall i :: |file| <= i < |info.value.code| ==> info.value.code[i] == 0)
         && info.value.codeSize == Wrap32(PaddedLength(|file|))
    ensures shaderModule == if res == Success then Some(created.handle) else None
  {
    var name := ShaderFileName(shaderID);
    if name.None? {
      return ErrorInitializationFailed, None, None;
    }
    var shaderPath := shaderDir + name.value;
    var code, filelength := ReadShader(files(shaderPath));
    info := Some(ShaderModuleCreateInfo(shaderPath, code[..], filelength));
    res := created.result;
    shaderModule := if res == Success then Some(created.handle) else None;
  }
}
