/** The fixed input/output pairs of the repository's unit tests for
    `to_tile_hash` and `to_spatial_id_str`, checked against the model. A
    hash is established by decoding it digit by digit down to the tile; the
    `Level` lemmas are the intermediate ancestors on the way. */
module TestVectors {
  import opened Cell
  import opened PathHash
  import opened SpatialId

  lemma HashOfOriginTileLevel4()
    ensures AllHashDigits("4111") && Decode("4111") == Zfxy(4, 0, 8, 8)
  {
    DecodeStep("", '4', "4", Zfxy(1, 0, 1, 1));
    DecodeStep("4", '1', "41", Zfxy(2, 0, 2, 2));
    DecodeStep("41", '1', "411", Zfxy(3, 0, 4, 4));
    DecodeStep("411", '1', "4111", Zfxy(4, 0, 8, 8));
  }

  lemma HashOfOriginTileLevel8()
    ensures AllHashDigits("41111111") && Decode("41111111") == Zfxy(8, 0, 128, 128)
  {
    HashOfOriginTileLevel4();
    DecodeStep("4111", '1', "41111", Zfxy(5, 0, 16, 16));
    DecodeStep("41111", '1', "411111", Zfxy(6, 0, 32, 32));
    DecodeStep("411111", '1', "4111111", Zfxy(7, 0, 64, 64));
    DecodeStep("4111111", '1', "41111111", Zfxy(8, 0, 128, 128));
  }

  lemma HashOfOriginTileLevel12()
    ensures AllHashDigits("411111111111") && Decode("411111111111") == Zfxy(12, 0, 2048, 2048)
  {
    HashOfOriginTileLevel8();
    DecodeStep("41111111", '1', "411111111", Zfxy(9, 0, 256, 256));
    DecodeStep("411111111", '1', "4111111111", Zfxy(10, 0, 512, 512));
    DecodeStep("4111111111", '1', "41111111111", Zfxy(11, 0, 1024, 1024));
    DecodeStep("41111111111", '1', "411111111111", Zfxy(12, 0, 2048, 2048));
  }

  lemma HashOfOriginTileLevel16()
    ensures AllHashDigits("4111111111111111") && Decode("4111111111111111") == Zfxy(16, 0, 32768, 32768)
  {
    HashOfOriginTileLevel12();
    DecodeStep("411111111111", '1', "4111111111111", Zfxy(13, 0, 4096, 4096));
    DecodeStep("4111111111111", '1', "41111111111111", Zfxy(14, 0, 8192, 8192));
    DecodeStep("41111111111111", '1', "411111111111111", Zfxy(15, 0, 16384, 16384));
    DecodeStep("411111111111111", '1', "4111111111111111", Zfxy(16, 0, 32768, 32768));
  }

  lemma HashOfOriginTileLevel20()
    ensures AllHashDigits("41111111111111111111") && Decode("41111111111111111111") == Zfxy(20, 0, 524288, 524288)
  {
    HashOfOriginTileLevel16();
    DecodeStep("4111111111111111", '1', "41111111111111111", Zfxy(17, 0, 65536, 65536));
    DecodeStep("41111111111111111", '1', "411111111111111111", Zfxy(18, 0, 131072, 131072));
    DecodeStep("411111111111111111", '1', "4111111111111111111", Zfxy(19, 0, 262144, 262144));
    DecodeStep("4111111111111111111", '1', "41111111111111111111", Zfxy(20, 0, 524288, 524288));
  }

  lemma HashOfOriginTileLevel24()
    ensures AllHashDigits("411111111111111111111515") && Decode("411111111111111111111515") == Zfxy(24, 5, 8388608, 8388608)
  {
    HashOfOriginTileLevel20();
    DecodeStep("41111111111111111111", '1', "411111111111111111111", Zfxy(21, 0, 1048576, 1048576));
    DecodeStep("411111111111111111111", '5', "4111111111111111111115", Zfxy(22, 1, 2097152, 2097152));
    DecodeStep("4111111111111111111115", '1', "41111111111111111111151", Zfxy(23, 2, 4194304, 4194304));
    DecodeStep("41111111111111111111151", '5', "411111111111111111111515", Zfxy(24, 5, 8388608, 8388608));
  }

  /** The tile at latitude 0, longitude 0, altitude 10, zoom 25. */
  lemma HashOfOriginTile()
    ensures TileHash(Zfxy(25, 10, 16777216, 16777216)) == "4111111111111111111115151"
  {
    HashOfOriginTileLevel24();
    DecodeStep("411111111111111111111515", '1', "4111111111111111111115151", Zfxy(25, 10, 16777216, 16777216));
    HashPathDecode("4111111111111111111115151");
  }

  lemma HashOfZoom18TileLevel4()
    ensures AllHashDigits("2441") && Decode("2441") == Zfxy(4, 0, 14, 6)
  {
    DecodeStep("", '2', "2", Zfxy(1, 0, 1, 0));
    DecodeStep("2", '4', "24", Zfxy(2, 0, 3, 1));
    DecodeStep("24", '4', "244", Zfxy(3, 0, 7, 3));
    DecodeStep("244", '1', "2441", Zfxy(4, 0, 14, 6));
  }

  lemma HashOfZoom18TileLevel8()
    ensures AllHashDigits("24411322") && Decode("24411322") == Zfxy(8, 0, 227, 100)
  {
    HashOfZoom18TileLevel4();
    DecodeStep("2441", '1', "24411", Zfxy(5, 0, 28, 12));
    DecodeStep("24411", '3', "244113", Zfxy(6, 0, 56, 25));
    DecodeStep("244113", '2', "2441132", Zfxy(7, 0, 113, 50));
    DecodeStep("2441132", '2', "24411322", Zfxy(8, 0, 227, 100));
  }

  lemma HashOfZoom18TileLevel12()
    ensures AllHashDigits("244113223421") && Decode("244113223421") == Zfxy(12, 0, 3638, 1612)
  {
    HashOfZoom18TileLevel8();
    DecodeStep("24411322", '3', "244113223", Zfxy(9, 0, 454, 201));
    DecodeStep("244113223", '4', "2441132234", Zfxy(10, 0, 909, 403));
    DecodeStep("2441132234", '2', "24411322342", Zfxy(11, 0, 1819, 806));
    DecodeStep("24411322342", '1', "244113223421", Zfxy(12, 0, 3638, 1612));
  }

  lemma HashOfZoom18TileLevel16()
    ensures AllHashDigits("2441132234213231") && Decode("2441132234213231") == Zfxy(16, 0, 58212, 25802)
  {
    HashOfZoom18TileLevel12();
    DecodeStep("244113223421", '3', "2441132234213", Zfxy(13, 0, 7276, 3225));
    DecodeStep("2441132234213", '2', "24411322342132", Zfxy(14, 0, 14553, 6450));
    DecodeStep("24411322342132", '3', "244113223421323", Zfxy(15, 0, 29106, 12901));
    DecodeStep("244113223421323", '1', "2441132234213231", Zfxy(16, 0, 58212, 25802));
  }

  /** A zoom-18 tile on the ground floor. */
  lemma HashOfZoom18Tile()
    ensures TileHash(Zfxy(18, 0, 232851, 103211)) == "244113223421323144"
  {
    HashOfZoom18TileLevel16();
    DecodeStep("2441132234213231", '4', "24411322342132314", Zfxy(17, 0, 116425, 51605));
    DecodeStep("24411322342132314", '4', "244113223421323144", Zfxy(18, 0, 232851, 103211));
    HashPathDecode("244113223421323144");
  }

  lemma IdOfOriginTile()
    ensures ToSpatialIdStr(Zfxy(25, 10, 16777216, 16777216)) == "/25/10/16777216/16777216"
  {
  }

}
