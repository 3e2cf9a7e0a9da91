/**
 * The dfvfs and plaso identifiers the exporter compares against. Their values
 * are those of dfvfs' `lib/definitions.py` and plaso's `EventTimestamp`, which
 * are not part of this model.
 */
module Dfvfs {
  const TypeBde := "BDE"
  const TypeCompressedStream := "COMPRESSED_STREAM"
  const TypeCpio := "CPIO"
  const TypeDataRange := "DATA_RANGE"
  const TypeEncodedStream := "ENCODED_STREAM"
  const TypeEncryptedStream := "ENCRYPTED_STREAM"
  const TypeEwf := "EWF"
  const TypeFvde := "FVDE"
  const TypeGzip := "GZIP"
  const TypeLvm := "LVM"
  const TypeMount := "MOUNT"
  const TypeNtfs := "NTFS"
  const TypeQcow := "QCOW"
  const TypeRaw := "RAW"
  const TypeSqliteBlob := "SQLITE_BLOB"
  const TypeTar := "TAR"
  const TypeTsk := "TSK"
  const TypeTskPartition := "TSK_PARTITION"
  const TypeVhdi := "VHDI"
  const TypeVmdk := "VMDK"
  const TypeVshadow := "VSHADOW"
  const TypeZip := "ZIP"

  const CompressionBzip2 := "bzip2"
  const CompressionDeflate := "deflate"
  const CompressionLzma := "lzma"
  const CompressionXz := "xz"
  const CompressionZlib := "zlib"

  const EncodingBase16 := "base16"
  const EncodingBase32 := "base32"
  const EncodingBase64 := "base64"

  const EncryptionAes := "aes"
  const EncryptionBlowfish := "blowfish"
  const EncryptionDes3 := "des3"
  const EncryptionRc4 := "rc4"

  const ModeCbc := "cbc"
  const ModeCfb := "cfb"
  const ModeEcb := "ecb"
  const ModeOfb := "ofb"

  const FileEntryDevice := "device"
  const FileEntryDirectory := "directory"
  const FileEntryFile := "file"

  /** plaso's `EventTimestamp` descriptions used by the NTFS exporter. */
  const CreationTime := "Creation Time"
  const ModificationTime := "Content Modification Time"
  const AccessTime := "Last Access Time"
  const EntryModificationTime := "Metadata Modification Time"
}

/** The vocabulary tables that translate dfvfs identifiers into CASE terms. */
module Mappings {
  import opened Wrappers
  import opened Python
  import opened Case
  import opened Dfvfs

  const CompressionMethod: map<string, Term> := map[
    CompressionBzip2 := Iri(CASE, "BZIP2"),
    CompressionDeflate := Iri(CASE, "Deflate"),
    CompressionLzma := Iri(CASE, "LZMA"),
    CompressionXz := Iri(CASE, "XZ"),
    CompressionZlib := Iri(CASE, "ZLIB")]

  const EncodingMethod: map<string, Term> := map[
    EncodingBase16 := Iri(CASE, "Base16"),
    EncodingBase32 := Iri(CASE, "Base32"),
    EncodingBase64 := Iri(CASE, "Base64")]

  const EncryptionMethod: map<string, Term> := map[
    EncryptionBlowfish := Iri(CASE, "Blowfish"),
    EncryptionDes3 := Iri(CASE, "DES3"),
    EncryptionAes := Iri(CASE, "AES"),
    EncryptionRc4 := Iri(CASE, "RC4")]

  const EncryptionMode: map<string, Term> := map[
    ModeOfb := Iri(CASE, "OFB"),
    ModeCfb := Iri(CASE, "CFB"),
    ModeEcb := Iri(CASE, "ECB"),
    ModeCbc := Iri(CASE, "CBC")]

  const FileSystemType: map<string, Term> := map[
    TypeBde := Iri(CASE, "BDE"),
    TypeCpio := Iri(CASE, "CPIO"),
    TypeEwf := Iri(CASE, "EWF"),
    TypeLvm := Iri(CASE, "LVM"),
    TypeNtfs := Iri(CASE, "NTFS"),
    TypeQcow := Iri(CASE, "QCOW"),
    TypeRaw := Iri(CASE, "RAW"),
    TypeSqliteBlob := Iri(CASE, "SQLite"),
    TypeTar := Iri(CASE, "TAR"),
    TypeVhdi := Iri(CASE, "VHDI"),
    TypeVmdk := Iri(CASE, "VMDK"),
    TypeVshadow := Iri(CASE, "VSSVolume"),
    TypeZip := Iri(CASE, "ZIP")]

  const ImageType: map<string, Term> := map[
    TypeVmdk := Iri(CASE, "VMDK"),
    TypeVhdi := Iri(CASE, "VHDI"),
    TypeEwf := Iri(CASE, "EWF"),
    TypeRaw := Iri(CASE, "RAW"),
    TypeQcow := Iri(CASE, "QCOW")]

  /** `kindOfRelationship`, including its `_default` entry. */
  const KindOfRelationship: map<string, string> := map[
    "_default" := "contained-within",
    TypeCompressedStream := "decompressed-from",
    TypeEncodedStream := "decoded-from",
    TypeEncryptedStream := "decrypted-from"]

  const HashMethod: map<string, Term> := map[
    "sha1_hash" := Iri(CASE, "SHA-1"),
    "sha256_hash" := Iri(CASE, "SHA256"),
    "md5_hash" := Iri(CASE, "MD5")]

  /** `mapping.get(key, None)` for a table keyed by strings: a value that is not a mapped string gives None. */
  function GetTerm(table: map<string, Term>, key: PyValue): Option<Term> {
    if key.PyStr? && key.s in table then Some(table[key.s]) else None
  }

  /** `kindOfRelationship.get(type_indicator, kindOfRelationship['_default'])`. */
  function RelationshipKind(typeIndicator: string): (k: string)
    ensures k == "decompressed-from" <==> typeIndicator == TypeCompressedStream
    ensures k == "decoded-from" <==> typeIndicator == TypeEncodedStream
    ensures k == "decrypted-from" <==> typeIndicator == TypeEncryptedStream
    ensures k == "contained-within" <==> typeIndicator !in {TypeCompressedStream, TypeEncodedStream, TypeEncryptedStream}
  {
    if typeIndicator in KindOfRelationship then KindOfRelationship[typeIndicator]
    else KindOfRelationship["_default"]
  }

  /** Every disk-image type is also a file-system type, with the same CASE term. */
  lemma ImageTypesAreFileSystemTypes()
    ensures forall k :: k in ImageType ==> k in FileSystemType && FileSystemType[k] == ImageType[k]
  {
  }

  /** The cipher tables cover exactly the four modes and four methods dfvfs defines. */
  lemma EncryptionTablesComplete()
    ensures EncryptionMode.Keys == {ModeOfb, ModeCfb, ModeEcb, ModeCbc}
    ensures EncryptionMethod.Keys == {EncryptionBlowfish, EncryptionDes3, EncryptionAes, EncryptionRc4}
    ensures HashMethod.Keys == {"sha1_hash", "sha256_hash", "md5_hash"}
  {
  }
}
