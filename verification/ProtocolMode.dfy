/** server/include/tds/protocol/protocol_mode.hpp */
module ProtocolMode {
  datatype Mode = Command | Download | Upload
}
